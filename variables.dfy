/** The closed set of template variables (main.py:9-17) and the `{{name}}`
    token each is written as (main.py:159). */
module Variables {
  import opened Replace

  /** The six variables the content fetch fills, in the program's order. */
  const Predefined: seq<string> := [
    "task_instruction",
    "vocabulary_list",
    "grammar_reference",
    "communication_reference",
    "guiding_questions",
    "can_do_statements"
  ]

  /** The variable that only the answer input fills. */
  const AnswerVariable: string := "student_answer"

  /** Every variable a template may use; the fill replaces them in this order. */
  const AllVariables: seq<string> := Predefined + [AnswerVariable]

  /** The placeholder `{{name}}`. */
  function Token(name: string): (t: string)
    ensures |t| == |name| + 4
    ensures t[0] == '{' && t[1] == '{' && t[|name| + 2] == '}' && t[|name| + 3] == '}'
    ensures forall i :: 0 <= i < |name| ==> t[i + 2] == name[i]
  {
    "{{" + name + "}}"
  }

  predicate BraceFree(s: string)
  {
    forall i :: 0 <= i < |s| ==> s[i] != '{' && s[i] != '}'
  }

  /** The answer variable comes last, after the six fetched ones, and only there. */
  lemma AnswerLast()
    ensures |AllVariables| == 7 && AllVariables[6] == AnswerVariable
    ensures AllVariables[..6] == Predefined && AnswerVariable !in Predefined
  {
  }

  /** No whitelisted name is empty or holds a brace. */
  lemma WhitelistBraceFree()
    ensures forall k :: k in AllVariables ==> BraceFree(k) && |k| > 0
  {
    FirstNamesBraceFree();
    LastNamesBraceFree();
  }

  lemma FirstNamesBraceFree()
    ensures BraceFree("task_instruction") && BraceFree("vocabulary_list") && BraceFree("grammar_reference")
  {
  }

  lemma LastNamesBraceFree()
    ensures BraceFree("communication_reference") && BraceFree("guiding_questions")
    ensures BraceFree("can_do_statements") && BraceFree(AnswerVariable)
  {
  }

  /** The three predefined names of equal length differ in their first two characters. */
  lemma SameLengthNamesDiffer()
    ensures "grammar_reference" != "guiding_questions" && "grammar_reference" != "can_do_statements"
    ensures "guiding_questions" != "can_do_statements"
  {
    assert "grammar_reference"[1] != "guiding_questions"[1];
    assert "grammar_reference"[0] != "can_do_statements"[0];
    assert "guiding_questions"[0] != "can_do_statements"[0];
  }

  /** One differing position rules an occurrence out. */
  lemma MismatchAt(s: string, t: string, p: nat, i: nat)
    requires i < |t| && (p + i >= |s| || s[p + i] != t[i])
    ensures !OccursAt(s, t, p)
  {
    if p + |t| <= |s| {
      assert s[p..p + |t|][i] == s[p + i];
    }
  }

  /** The token of a brace-free name `k` cannot overlap the token of another
      brace-free name `n`: placeholders of distinct names never share a character. */
  lemma {:induction false} TokensDisjoint(x: string, n: string, y: string, k: string, p: nat)
    requires BraceFree(n) && BraceFree(k) && n != k
    requires p < |x| + |n| + 4 && |x| < p + |k| + 4
    ensures !OccursAt(x + Token(n) + y, Token(k), p)
  {
    if p < |x| {
      StartsBefore(x, n, y, k, p);
    } else if p > |x| {
      StartsInside(x, n, y, k, p);
    } else {
      SameStart(x, n, y, k);
    }
  }

  /** Starting just before `{{n}}`, the token of `k` meets its opening braces
      with a character of `k` or with its own `}`. */
  lemma StartsBefore(x: string, n: string, y: string, k: string, p: nat)
    requires BraceFree(k) && p < |x| < p + |k| + 4
    ensures !OccursAt(x + Token(n) + y, Token(k), p)
  {
    var s, q, tk := x + Token(n) + y, |x|, Token(k);
    assert s[q] == '{' && s[q + 1] == '{';
    if q - p == 1 {
      MismatchAt(s, tk, p, 2);
    } else {
      MismatchAt(s, tk, p, q - p);
    }
  }

  /** Starting inside `{{n}}`, the opening braces of the token of `k` meet a
      character of `n` or a closing `}`. */
  lemma StartsInside(x: string, n: string, y: string, k: string, p: nat)
    requires BraceFree(n) && |x| < p < |x| + |n| + 4
    ensures !OccursAt(x + Token(n) + y, Token(k), p)
  {
    var s, q := x + Token(n) + y, |x|;
    if p - q == 1 {
      TokenCharAt(x, n, y, 2);
      MismatchAt(s, Token(k), p, 1);
    } else {
      TokenCharAt(x, n, y, p - q);
      MismatchAt(s, Token(k), p, 0);
    }
  }

  /** Past its opening braces, the token of a brace-free name holds no `{`. */
  lemma TokenCharAt(x: string, n: string, y: string, i: nat)
    requires BraceFree(n) && 2 <= i < |n| + 4
    ensures (x + Token(n) + y)[|x| + i] == Token(n)[i] != '{'
  {
    if i < |n| + 2 {
      assert Token(n)[i] == n[i - 2];
    }
  }

  /** At the same start, the first `}` or the first differing character shows the mismatch. */
  lemma SameStart(x: string, n: string, y: string, k: string)
    requires BraceFree(n) && BraceFree(k) && n != k
    ensures !OccursAt(x + Token(n) + y, Token(k), |x|)
  {
    var s, q := x + Token(n) + y, |x|;
    if |k| < |n| {
      TokenIndex(x, n, y, |k| + 2);
      assert Token(n)[|k| + 2] == n[|k|];
      MismatchAt(s, Token(k), q, |k| + 2);
    } else if |k| > |n| {
      TokenIndex(x, n, y, |n| + 2);
      assert Token(k)[|n| + 2] == k[|n|];
      MismatchAt(s, Token(k), q, |n| + 2);
    } else {
      var j :| 0 <= j < |k| && k[j] != n[j];
      TokenIndex(x, n, y, j + 2);
      assert Token(n)[j + 2] == n[j] && Token(k)[j + 2] == k[j];
      MismatchAt(s, Token(k), q, j + 2);
    }
  }

  /** Where `{{n}}` sits in `x + {{n}} + y`. */
  lemma TokenIndex(x: string, n: string, y: string, i: nat)
    requires i < |n| + 4
    ensures (x + Token(n) + y)[|x| + i] == Token(n)[i]
  {
  }
}
