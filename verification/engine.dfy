/** Answer normalisation and evaluation of the quiz engine (app/engine.py).

    A raw answer is brought into a canonical form before it is compared with
    the stored answer: it is upper-cased, blanks and brackets are deleted, and
    the three multiplication signs are written as the letter X.  The store of
    questions is a map from question id to question. */
module Engine {

  datatype Option<T> = None | Some(value: T)

  /** A question as the record store keeps it; only the answer matters here. */
  datatype Question = Question(statement: string, answer: string)

  type Store = map<int, Question>

  /** What `evaluate_answer` reports: whether the answer was right, and the
      stored answer (absent only when the question does not exist). */
  datatype EvalResult = EvalResult(correct: bool, expected: Option<string>)

  /** The characters the normaliser deletes, in the order it deletes them. */
  const Deleted: seq<char> := [' ', '\t', '\n', '(', ')', '[', ']']

  /** Asterisk, middle dot (U+00B7) and multiplication sign (U+00D7). */
  const TimesSigns: seq<char> := ['*', '\U{B7}', '\U{D7}']

  // ---------------------------------------------------------------------
  // The string operations the normaliser is built from
  // ---------------------------------------------------------------------

  predicate IsLower(c: char) {
    'a' <= c <= 'z'
  }

  /** Upper-casing of one character, over the ASCII letters. */
  function UpperChar(c: char): (r: char) {
    if IsLower(c) then (c as int - 32) as char else c
  }

  /** `str.upper()`: every character upper-cased, one for one. */
  function UpperCase(s: string): (r: string)
    ensures |r| == |s|
  {
    seq(|s|, i requires 0 <= i < |s| => UpperChar(s[i]))
  }

  /** `s.replace(c, "")`: every occurrence of `c` deleted. */
  function Remove(s: string, c: char): (r: string)
  {
    if s == [] then []
    else (if s[0] == c then [] else [s[0]]) + Remove(s[1..], c)
  }

  /** `s.replace(c, d)` for one-character `c` and `d`: a one-for-one swap. */
  function Replace(s: string, c: char, d: char): (r: string)
    ensures |r| == |s|
  {
    seq(|s|, i requires 0 <= i < |s| => if s[i] == c then d else s[i])
  }

  /** The deletion loop after it has handled the characters `cs`, in order. */
  function RemoveAll(s: string, cs: seq<char>): (r: string)
  {
    if cs == [] then s else Remove(RemoveAll(s, cs[..|cs| - 1]), cs[|cs| - 1])
  }

  /** The chain of three replacements that writes every multiplication sign as X. */
  function UnifyTimes(s: string): (r: string) {
    Replace(Replace(Replace(s, '*', 'X'), '\U{B7}', 'X'), '\U{D7}', 'X')
  }

  /** The stages of the normaliser after its emptiness test. */
  function Rewrite(s: string): (r: string) {
    UnifyTimes(RemoveAll(UpperCase(s), Deleted))
  }

  /** `normalize`: the canonical form of an answer. */
  function Normalize(s: string): (r: string) {
    if s == "" then "" else Rewrite(s)
  }

  /** `normalize` as the source runs it: upper-case, then one deletion pass
      per character of `Deleted`, then the replacement chain. */
  method NormalizeAnswer(s: string) returns (r: string)
    ensures r == Normalize(s)
  {
    if s == "" {
      return "";
    }
    r := UpperCase(s);
    for i := 0 to |Deleted|
      invariant r == RemoveAll(UpperCase(s), Deleted[..i])
    {
      assert Deleted[..i + 1][..i] == Deleted[..i];
      r := Remove(r, Deleted[i]);
    }
    assert Deleted[..|Deleted|] == Deleted;
    r := Replace(r, '*', 'X');
    r := Replace(r, '\U{B7}', 'X');
    r := Replace(r, '\U{D7}', 'X');
  }

  // ---------------------------------------------------------------------
  // An independent, character-by-character definition of the canonical form
  // ---------------------------------------------------------------------

  /** A character that can appear in a canonical form. */
  predicate Canonical(c: char) {
    c !in Deleted && c !in TimesSigns && !IsLower(c)
  }

  /** What one input character contributes to the canonical form. */
  function NormChar(c: char): (r: string)
    ensures |r| <= 1
  {
    var u := UpperChar(c);
    if u in Deleted then [] else if u in TimesSigns then ['X'] else [u]
  }

  /** The canonical form, built one character at a time. */
  function Canon(s: string): (r: string)
    ensures |r| <= |s|
  {
    if s == [] then [] else NormChar(s[0]) + Canon(s[1..])
  }

  /** Only canonical characters appear in a canonical form. */
  lemma {:induction false} CanonShape(s: string)
    ensures forall i :: 0 <= i < |Canon(s)| ==> Canonical(Canon(s)[i])
  {
    if s != [] {
      CanonShape(s[1..]);
      var u := UpperChar(s[0]);
      assert !IsLower(u);
      assert forall i :: 0 <= i < |NormChar(s[0])| ==> Canonical(NormChar(s[0])[i]);
    }
  }

  lemma {:induction false} CanonConcat(a: string, b: string)
    ensures Canon(a + b) == Canon(a) + Canon(b)
  {
    if a == [] {
      assert a + b == b;
    } else {
      assert (a + b)[1..] == a[1..] + b;
      CanonConcat(a[1..], b);
    }
  }

  /** Canonical characters are left as they are. */
  lemma {:induction false} CanonFixed(t: string)
    requires forall i :: 0 <= i < |t| ==> Canonical(t[i])
    ensures Canon(t) == t
  {
    if t != [] {
      assert Canonical(t[0]);
      assert NormChar(t[0]) == [t[0]];
      CanonFixed(t[1..]);
    }
  }

  // ---------------------------------------------------------------------
  // The staged normaliser agrees with the character-by-character one
  // ---------------------------------------------------------------------

  lemma UpperCaseConcat(a: string, b: string)
    ensures UpperCase(a + b) == UpperCase(a) + UpperCase(b)
  {
  }

  lemma ReplaceConcat(a: string, b: string, c: char, d: char)
    ensures Replace(a + b, c, d) == Replace(a, c, d) + Replace(b, c, d)
  {
  }

  lemma {:induction false} RemoveConcat(a: string, b: string, c: char)
    ensures Remove(a + b, c) == Remove(a, c) + Remove(b, c)
  {
    if a == [] {
      assert a + b == b;
    } else {
      assert (a + b)[1..] == a[1..] + b;
      RemoveConcat(a[1..], b, c);
    }
  }

  lemma {:induction false} RemoveAllConcat(a: string, b: string, cs: seq<char>)
    ensures RemoveAll(a + b, cs) == RemoveAll(a, cs) + RemoveAll(b, cs)
  {
    if cs != [] {
      var init := cs[..|cs| - 1];
      RemoveAllConcat(a, b, init);
      RemoveConcat(RemoveAll(a, init), RemoveAll(b, init), cs[|cs| - 1]);
    }
  }

  lemma {:induction false} RemoveAllSingle(c: char, cs: seq<char>)
    ensures RemoveAll([c], cs) == if c in cs then [] else [c]
  {
    if cs != [] {
      var init := cs[..|cs| - 1];
      assert cs == init + [cs[|cs| - 1]];
      RemoveAllSingle(c, init);
      assert Remove([c], cs[|cs| - 1]) == (if c == cs[|cs| - 1] then [] else [c]) + Remove([], cs[|cs| - 1]);
    }
  }

  lemma {:induction false} RemoveAllNil(cs: seq<char>)
    ensures RemoveAll([], cs) == []
  {
    if cs != [] {
      RemoveAllNil(cs[..|cs| - 1]);
    }
  }

  lemma RewriteConcat(a: string, b: string)
    ensures Rewrite(a + b) == Rewrite(a) + Rewrite(b)
  {
    UpperCaseConcat(a, b);
    var u, v := RemoveAll(UpperCase(a), Deleted), RemoveAll(UpperCase(b), Deleted);
    RemoveAllConcat(UpperCase(a), UpperCase(b), Deleted);
    ReplaceConcat(u, v, '*', 'X');
    var u1, v1 := Replace(u, '*', 'X'), Replace(v, '*', 'X');
    ReplaceConcat(u1, v1, '\U{B7}', 'X');
    var u2, v2 := Replace(u1, '\U{B7}', 'X'), Replace(v1, '\U{B7}', 'X');
    ReplaceConcat(u2, v2, '\U{D7}', 'X');
  }

  lemma RewriteChar(c: char)
    ensures Rewrite([c]) == NormChar(c)
  {
    var u := UpperChar(c);
    assert UpperCase([c]) == [u];
    RemoveAllSingle(u, Deleted);
  }

  lemma {:induction false} RewriteIsCanon(s: string)
    ensures Rewrite(s) == Canon(s)
  {
    if s == [] {
      assert UpperCase(s) == [];
      RemoveAllNil(Deleted);
    } else {
      assert s == [s[0]] + s[1..];
      RewriteConcat([s[0]], s[1..]);
      RewriteChar(s[0]);
      RewriteIsCanon(s[1..]);
    }
  }

  /** The normaliser's result is the character-by-character canonical form. */
  lemma NormalizeIsCanon(s: string)
    ensures Normalize(s) == Canon(s)
  {
    if s != "" {
      RewriteIsCanon(s);
    }
  }

  // ---------------------------------------------------------------------
  // Properties of the normaliser
  // ---------------------------------------------------------------------

  /** No blanks, brackets, multiplication signs or lower-case letters remain,
      and the result is never longer than the input. */
  lemma NormalizeShape(s: string)
    ensures |Normalize(s)| <= |s|
    ensures forall i :: 0 <= i < |Normalize(s)| ==>
      Normalize(s)[i] !in Deleted && Normalize(s)[i] !in TimesSigns && !IsLower(Normalize(s)[i])
  {
    NormalizeIsCanon(s);
    CanonShape(s);
  }

  lemma NormalizeIdempotent(s: string)
    ensures Normalize(Normalize(s)) == Normalize(s)
  {
    var n := Normalize(s);
    NormalizeIsCanon(s);
    NormalizeIsCanon(n);
    CanonShape(s);
    CanonFixed(n);
  }

  lemma CanonSingle(c: char)
    ensures Canon([c]) == NormChar(c)
  {
  }

  lemma CanonSplice(a: string, c: char, b: string)
    ensures Canon(a + [c] + b) == Canon(a) + NormChar(c) + Canon(b)
  {
    calc {
      Canon(a + [c] + b);
    == { CanonConcat(a + [c], b); }
      Canon(a + [c]) + Canon(b);
    == { CanonConcat(a, [c]); CanonSingle(c); }
      Canon(a) + NormChar(c) + Canon(b);
    }
  }

  /** A blank or bracket is deleted, not replaced by anything. */
  lemma NormalizeDeletes(a: string, c: char, b: string)
    requires c in Deleted
    ensures Normalize(a + [c] + b) == Normalize(a + b)
  {
    assert NormChar(c) == [] by {
      assert UpperChar(c) == c;
    }
    CanonSplice(a, c, b);
    CanonConcat(a, b);
    NormalizeIsCanon(a + [c] + b);
    NormalizeIsCanon(a + b);
  }

  /** Each multiplication sign, and a lower-case or upper-case x, becomes
      exactly one X. */
  lemma NormalizeTimes(a: string, c: char, b: string)
    requires c in TimesSigns || c == 'x' || c == 'X'
    ensures Normalize(a + [c] + b) == Normalize(a + ['X'] + b)
  {
    assert NormChar(c) == ['X'] by {
      assert UpperChar(c) == (if c == 'x' then 'X' else c);
    }
    assert NormChar('X') == ['X'];
    CanonSplice(a, c, b);
    CanonSplice(a, 'X', b);
    NormalizeIsCanon(a + [c] + b);
    NormalizeIsCanon(a + ['X'] + b);
  }

  lemma NormalizeEmpty()
    ensures Normalize("") == ""
  {
  }

  /** The canonical forms of the written examples. */
  lemma CanonStarExample()
    ensures Canon("2 * 3") == "2X3"
  {
  }

  lemma CanonProductExamples()
    ensures Canon("2\U{D7}3") == "2X3" && Canon("2\U{B7}3") == "2X3" && Canon("2x3") == "2X3"
  {
  }

  lemma CanonBracketExample()
    ensures Canon("(a+b)") == "A+B"
  {
  }

  lemma CanonNumberExamples()
    ensures Canon("42") == "42" && Canon(" 42 ") == "42" && Canon("4 2") == "42" && Canon("43") == "43"
  {
    assert NormChar(' ') == [];
    assert Canon(" ") == "";
    assert Canon("2") == "2";
    assert Canon("3") == "3";
    assert Canon("2 ") == "2";
    assert Canon(" 2") == "2";
    assert Canon("42 ") == "42";
  }

  /** Every way of writing a product normalises to the same text, and
      brackets disappear. */
  lemma NormalizeExamples()
    ensures var star, cross, dot, letter := "2 * 3", "2\U{D7}3", "2\U{B7}3", "2x3";
      Normalize(star) == "2X3" && Normalize(cross) == "2X3" &&
      Normalize(dot) == "2X3" && Normalize(letter) == "2X3"
    ensures var s := "(a+b)"; Normalize(s) == "A+B"
  {
    CanonStarExample();
    CanonProductExamples();
    CanonBracketExample();
    NormalizeIsCanon("2 * 3");
    NormalizeIsCanon("2\U{D7}3");
    NormalizeIsCanon("2\U{B7}3");
    NormalizeIsCanon("2x3");
    NormalizeIsCanon("(a+b)");
  }

  /** Blanks inside or around a number are dropped; digits are kept. */
  lemma NormalizeNumberExamples()
    ensures var plain, padded, split, other := "42", " 42 ", "4 2", "43";
      Normalize(plain) == "42" && Normalize(padded) == "42" &&
      Normalize(split) == "42" && Normalize(other) == "43"
  {
    CanonNumberExamples();
    NormalizeIsCanon("42");
    NormalizeIsCanon(" 42 ");
    NormalizeIsCanon("4 2");
    NormalizeIsCanon("43");
  }

  // ---------------------------------------------------------------------
  // Evaluation
  // ---------------------------------------------------------------------

  /** `get_question`: the question with this id, if the store has one. */
  function GetQuestion(store: Store, id: int): (r: Option<Question>)
    ensures r.Some? <==> id in store
    ensures r.Some? ==> r.value == store[id]
  {
    if id in store then Some(store[id]) else None
  }

  /** `evaluate_answer`: an answer is correct exactly when its canonical form
      equals that of the stored answer; the stored answer is reported as it
      was written, and is missing only for an unknown question. */
  function EvaluateAnswer(store: Store, questionId: int, userAnswer: string): (r: EvalResult)
    ensures r.expected.None? <==> questionId !in store
    ensures questionId !in store ==> !r.correct
    ensures questionId in store ==>
      r.expected == Some(store[questionId].answer) &&
      (r.correct <==> Normalize(userAnswer) == Normalize(store[questionId].answer))
  {
    match GetQuestion(store, questionId)
    case None => EvalResult(false, None)
    case Some(q) =>
      if Normalize(userAnswer) == Normalize(q.answer) then EvalResult(true, Some(q.answer))
      else EvalResult(false, Some(q.answer))
  }

  /** Answers that differ only in blanks, brackets, letter case or the way
      multiplication is written are judged alike. */
  lemma EvaluateUpToFormatting(store: Store, id: int, u: string, v: string)
    requires Normalize(u) == Normalize(v)
    ensures EvaluateAnswer(store, id, u) == EvaluateAnswer(store, id, v)
  {
  }

  /** The canonical form of the stored answer is itself accepted. */
  lemma EvaluateAcceptsCanonical(store: Store, id: int)
    requires id in store
    ensures EvaluateAnswer(store, id, Normalize(store[id].answer)).correct
  {
    NormalizeIdempotent(store[id].answer);
  }

  lemma EvaluateExamples()
    ensures var store := map[1 := Question("6 x 7", "42")];
      EvaluateAnswer(store, 1, "42") == EvalResult(true, Some("42")) &&
      EvaluateAnswer(store, 1, " 42 ") == EvalResult(true, Some("42")) &&
      EvaluateAnswer(store, 1, "4 2") == EvalResult(true, Some("42")) &&
      EvaluateAnswer(store, 1, "43") == EvalResult(false, Some("42")) &&
      EvaluateAnswer(store, 2, "42") == EvalResult(false, None)
  {
    NormalizeNumberExamples();
  }
}
