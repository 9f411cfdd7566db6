/** The template check of main.py:141-145: `re.findall(r"\{\{(.*?)\}\}", t)`
    collects the names inside placeholders, and those outside the whitelist
    are reported. */
module Scanner {
  import opened Wrappers
  import opened Replace
  import opened Variables

  /** `}}` starts at position `j` of `s`. */
  predicate ClosesAt(s: string, j: int)
  {
    0 <= j && j + 1 < |s| && s[j] == '}' && s[j + 1] == '}'
  }

  /** Where the lazy group `(.*?)` stops, scanning `s` from its start: the
      first `}}`, provided no newline comes before it (`.` does not match a
      newline); `None` when there is no such `}}`. */
  function FindClose(s: string): (r: Option<nat>)
    ensures r.Some? ==> ClosesAt(s, r.value)
    ensures r.Some? ==> forall j :: 0 <= j < r.value ==> s[j] != '\n' && !ClosesAt(s, j)
    ensures r.None? ==> forall j :: ClosesAt(s, j) ==> '\n' in s[..j]
  {
    if |s| < 2 then None
    else if s[0] == '}' && s[1] == '}' then Some(0)
    else if s[0] == '\n' then None
    else match FindClose(s[1..])
      case Some(j) => Some(j + 1)
      case None =>
        assert forall j :: ClosesAt(s, j) && j > 0 ==> ClosesAt(s[1..], j - 1) && s[..j] == [s[0]] + s[1..][..j - 1];
        None
  }

  /** The names `re.findall` captures, in order: a match starts at the first
      `{{` from which a closing `}}` can be reached, captures what lies between,
      and the search resumes after that `}}`; a `{{` with no reachable close
      is passed over one character at a time. */
  function Scan(s: string): seq<string>
    decreases |s|
  {
    if |s| < 2 then []
    else if s[0] == '{' && s[1] == '{' then
      match FindClose(s[2..])
      case Some(j) => [s[2..j + 2]] + Scan(s[j + 4..])
      case None => Scan(s[1..])
    else Scan(s[1..])
  }

  /** Each of `names` is free of newlines and is the name of a placeholder occurring in `s`. */
  ghost predicate NamesOccur(names: seq<string>, s: string)
  {
    forall n :: n in names ==> '\n' !in n && exists p: nat :: OccursAt(s, Token(n), p)
  }

  /** Placeholders found in a suffix occur in the whole text. */
  lemma NamesOccurShift(names: seq<string>, s: string, k: nat)
    requires k <= |s| && NamesOccur(names, s[k..])
    ensures NamesOccur(names, s)
  {
    forall n | n in names ensures exists p: nat :: OccursAt(s, Token(n), p) {
      var p: nat :| OccursAt(s[k..], Token(n), p);
      OccursShift(s, Token(n), k, p);
    }
  }

  /** The placeholder at the start of `s`, whose name is `s[2..j + 2]`, adds that name. */
  lemma NamesOccurCons(names: seq<string>, s: string, j: nat)
    requires j + 4 <= |s| && s[..j + 4] == Token(s[2..j + 2]) && '\n' !in s[2..j + 2]
    requires NamesOccur(names, s)
    ensures NamesOccur([s[2..j + 2]] + names, s)
  {
    assert OccursAt(s, Token(s[2..j + 2]), 0);
  }

  /** Every captured name is the name of a placeholder that occurs in the
      template, and it holds no newline. */
  lemma {:induction false} ScanSound(s: string)
    ensures NamesOccur(Scan(s), s)
    decreases |s|, 1
  {
    if |s| >= 2 {
      if s[0] == '{' && s[1] == '{' && FindClose(s[2..]).Some? {
        ScanSoundToken(s);
      } else {
        ScanSound(s[1..]);
        NamesOccurShift(Scan(s[1..]), s, 1);
      }
    }
  }

  /** ScanSound when `s` opens with a placeholder that closes. */
  lemma {:induction false} ScanSoundToken(s: string)
    requires |s| >= 2 && s[0] == '{' && s[1] == '{' && FindClose(s[2..]).Some?
    ensures NamesOccur(Scan(s), s)
    decreases |s|, 0
  {
    var j := FindClose(s[2..]).value;
    assert Scan(s) == [s[2..j + 2]] + Scan(s[j + 4..]);
    assert forall i :: 0 <= i < j ==> s[2..][i] == s[i + 2];
    ScanSound(s[j + 4..]);
    TokenHead(s, j, Scan(s[j + 4..]));
  }

  /** A placeholder without newlines at the start of `s`, followed by text
      whose placeholders are `names`, adds its own name in front. */
  lemma TokenHead(s: string, j: nat, names: seq<string>)
    requires j + 4 <= |s| && s[0] == '{' && s[1] == '{' && s[j + 2] == '}' && s[j + 3] == '}'
    requires forall i :: 2 <= i < j + 2 ==> s[i] != '\n'
    requires NamesOccur(names, s[j + 4..])
    ensures NamesOccur([s[2..j + 2]] + names, s)
  {
    NamesOccurShift(names, s, j + 4);
    assert s[..j + 4] == Token(s[2..j + 2]);
    var name := s[2..j + 2];
    assert forall k :: 0 <= k < j ==> name[k] == s[k + 2];
    NamesOccurCons(names, s, j);
  }

  /** Text without `{` contributes no names. */
  lemma {:induction false} ScanSkip(a: string, b: string)
    requires '{' !in a
    ensures Scan(a + b) == Scan(b)
  {
    if |a| > 0 {
      assert (a + b)[0] == a[0];
      assert (a + b)[1..] == a[1..] + b;
      ScanSkip(a[1..], b);
    } else {
      assert a + b == b;
    }
  }

  /** A placeholder whose name holds no `}` and no newline is captured whole,
      and the search goes on after it. */
  lemma {:induction false} ScanToken(n: string, b: string)
    requires '}' !in n && '\n' !in n
    ensures Scan(Token(n) + b) == [n] + Scan(b)
  {
    var s := Token(n) + b;
    var u := s[2..];
    assert u == n + "}}" + b;
    assert ClosesAt(u, |n|);
    assert u[..|n|] == n;
    assert FindClose(u) == Some(|n|);
    assert s[2..|n| + 2] == n;
    assert s[|n| + 4..] == b;
  }

  /** The names the warning of main.py:145 lists: captured names outside the
      whitelist. Each one is the name of a placeholder present in the template. */
  function UnknownNames(template: string): (r: set<string>)
    ensures forall n :: n in r ==> n !in AllVariables && '\n' !in n
    ensures forall n :: n in r ==> exists p: nat :: OccursAt(template, Token(n), p)
  {
    ScanSound(template);
    assert NamesOccur(Scan(template), template);
    set n | n in Scan(template) && n !in AllVariables
  }

  /** The warning is raised exactly when some captured name is outside the whitelist. */
  predicate WarnsUnknown(template: string)
  {
    UnknownNames(template) != {}
  }

  /** Brace-free text before a placeholder is passed over. */
  lemma {:induction false} ScanAfterText(a: string, n: string, rest: string)
    requires '{' !in a && '}' !in n && '\n' !in n
    ensures Scan(a + Token(n) + rest) == [n] + Scan(rest)
  {
    assert a + Token(n) + rest == a + (Token(n) + rest);
    ScanSkip(a, Token(n) + rest);
    ScanToken(n, rest);
  }

  /** Two placeholders in brace-free text are captured in order. */
  lemma {:induction false} ScanTwoTokens(a: string, n1: string, m: string, n2: string, z: string)
    requires '{' !in a && '{' !in m && '{' !in z
    requires '}' !in n1 && '\n' !in n1 && '}' !in n2 && '\n' !in n2
    ensures Scan(a + Token(n1) + m + Token(n2) + z) == [n1, n2]
  {
    var tail := m + Token(n2) + z;
    assert a + Token(n1) + m + Token(n2) + z == a + Token(n1) + tail;
    ScanAfterText(a, n1, tail);
    ScanAfterText(m, n2, z);
    ScanSkip(z, "");
    assert z + "" == z;
  }

  /** Of two captured names, only the one outside the whitelist is reported. */
  lemma {:induction false} UnknownOfTwo(t: string, n1: string, n2: string)
    requires Scan(t) == [n1, n2] && n1 !in AllVariables && n2 in AllVariables
    ensures UnknownNames(t) == {n1}
  {
  }

  /** In `Hello {{unknown_var}} and {{student_answer}}!` both names are
      captured, in order, and only the unknown one is reported. */
  lemma UnknownExample()
    ensures var t := "Hello " + Token("unknown_var") + " and " + Token("student_answer") + "!";
      Scan(t) == ["unknown_var", "student_answer"] && UnknownNames(t) == {"unknown_var"}
  {
    var t := "Hello " + Token("unknown_var") + " and " + Token("student_answer") + "!";
    ScanTwoTokens("Hello ", "unknown_var", " and ", "student_answer", "!");
    assert "unknown_var" !in AllVariables;
    assert "student_answer" in AllVariables;
    UnknownOfTwo(t, "unknown_var", "student_answer");
  }
}
