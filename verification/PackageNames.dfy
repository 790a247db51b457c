/** The names app/application/use_cases/enqueue_scan.py accepts, against the regular expression it compiles. */
module PackageNames {
  import opened Text

  /** [a-z0-9~] */
  predicate IsLead(c: char) { 'a' <= c <= 'z' || '0' <= c <= '9' || c == '~' }

  /** [a-z0-9~][a-z0-9._~-]* */
  predicate IsNamePart(s: string) {
    s != "" && IsLead(s[0]) && forall i :: 0 <= i < |s| ==> IsLead(s[i]) || s[i] == '.' || s[i] == '_' || s[i] == '-'
  }

  /** The pattern: a part, or a scope, which is a part between `@` and `/`, and then a part. */
  predicate IsValidPackageName(name: string) {
    || IsNamePart(name)
    || (name != "" && name[0] == '@'
        && exists i :: 0 < i < |name| && name[i] == '/' && IsNamePart(name[1..i]) && IsNamePart(name[i + 1..]))
  }

  /** Stripping changes no valid name, so validating the stripped name is all the validation there is. */
  lemma ValidNamesAreStripped(name: string)
    requires IsValidPackageName(name)
    ensures Strip(name) == name
  {
  }

  // ---------- the pattern as a regular expression

  datatype Regex = Class(chars: set<char>) | Sequence(first: Regex, second: Regex) | Optional(r: Regex) | Star(r: Regex)

  /** re.fullmatch */
  ghost predicate Matches(r: Regex, s: string)
    decreases r, |s|
  {
    match r
    case Class(chars) => |s| == 1 && s[0] in chars
    case Sequence(first, second) => exists i :: 0 <= i <= |s| && Matches(first, s[..i]) && Matches(second, s[i..])
    case Optional(inner) => s == "" || Matches(inner, s)
    case Star(inner) => s == "" || exists i :: 0 < i <= |s| && Matches(inner, s[..i]) && Matches(r, s[i..])
  }

  const LEAD: set<char> := (set c: char | 'a' <= c <= 'z') + (set c: char | '0' <= c <= '9') + {'~'}
  const BODY: set<char> := (set c: char | 'a' <= c <= 'z') + (set c: char | '0' <= c <= '9') + {'.', '_', '~', '-'}

  const PART := Sequence(Class(LEAD), Star(Class(BODY)))
  const SCOPE := Sequence(Class({'@'}), Sequence(PART, Class({'/'})))
  const PATTERN := Sequence(Optional(SCOPE), PART)

  lemma {:induction false} StarOfClass(chars: set<char>, s: string)
    ensures Matches(Star(Class(chars)), s) <==> forall i :: 0 <= i < |s| ==> s[i] in chars
    decreases |s|
  {
    var star := Star(Class(chars));
    if s != "" {
      StarOfClass(chars, s[1..]);
      assert forall i :: 1 <= i < |s| ==> s[i] == s[1..][i - 1];
      if Matches(star, s) {
        var i :| 0 < i <= |s| && Matches(Class(chars), s[..i]) && Matches(star, s[i..]);
        assert i == 1;
      }
      if forall i :: 0 <= i < |s| ==> s[i] in chars {
        assert Matches(Class(chars), s[..1]) && Matches(star, s[1..]);
      }
    }
  }

  lemma PartExactly(s: string)
    ensures Matches(PART, s) <==> IsNamePart(s)
  {
    assert forall c: char :: IsLead(c) <==> c in LEAD;
    assert forall c: char :: c in BODY <==> IsLead(c) || c == '.' || c == '_' || c == '-';
    forall i | 0 <= i <= |s|
      ensures Matches(Star(Class(BODY)), s[i..]) <==> forall k :: i <= k < |s| ==> s[k] in BODY
    {
      StarOfClass(BODY, s[i..]);
      assert forall k :: i <= k < |s| ==> s[k] == s[i..][k - i];
    }
    hide IsLead;
    if Matches(PART, s) {
      var i :| 0 <= i <= |s| && Matches(Class(LEAD), s[..i]) && Matches(Star(Class(BODY)), s[i..]);
      assert i == 1 && s[..1][0] == s[0];
    }
    if IsNamePart(s) {
      assert Matches(Class(LEAD), s[..1]) && Matches(Star(Class(BODY)), s[1..]);
    }
  }

  lemma StartsWithChar(c: char, second: Regex, s: string)
    ensures Matches(Sequence(Class({c}), second), s) <==> s != "" && s[0] == c && Matches(second, s[1..])
  {
    if Matches(Sequence(Class({c}), second), s) {
      var i :| 0 <= i <= |s| && Matches(Class({c}), s[..i]) && Matches(second, s[i..]);
      assert i == 1 && s[..1][0] == s[0];
    }
    if s != "" && s[0] == c && Matches(second, s[1..]) {
      assert Matches(Class({c}), s[..1]);
    }
  }

  lemma EndsWithChar(first: Regex, c: char, s: string)
    ensures Matches(Sequence(first, Class({c})), s) <==> s != "" && s[|s| - 1] == c && Matches(first, s[..|s| - 1])
  {
    if Matches(Sequence(first, Class({c})), s) {
      var i :| 0 <= i <= |s| && Matches(first, s[..i]) && Matches(Class({c}), s[i..]);
      assert |s[i..]| == 1 && s[i..][0] == s[i] && i == |s| - 1;
    }
    if s != "" && s[|s| - 1] == c && Matches(first, s[..|s| - 1]) {
      assert Matches(Class({c}), s[|s| - 1..]);
    }
  }

  lemma ScopeExactly(s: string)
    ensures Matches(SCOPE, s) <==> |s| >= 2 && s[0] == '@' && s[|s| - 1] == '/' && IsNamePart(s[1..|s| - 1])
  {
    hide IsNamePart, Matches;
    StartsWithChar('@', Sequence(PART, Class({'/'})), s);
    if s != "" {
      EndsWithChar(PART, '/', s[1..]);
      if |s| >= 2 {
        assert s[1..][..|s| - 2] == s[1..|s| - 1];
        PartExactly(s[1..|s| - 1]);
      }
    }
  }

  lemma PatternSplits(s: string)
    ensures Matches(PATTERN, s)
            <==> Matches(PART, s) || exists i :: 0 < i <= |s| && Matches(SCOPE, s[..i]) && Matches(PART, s[i..])
  {
    hide SCOPE, PART;
    assert s[..0] == "" && s[0..] == s;
    if Matches(PATTERN, s) {
      var i :| 0 <= i <= |s| && Matches(Optional(SCOPE), s[..i]) && Matches(PART, s[i..]);
      assert i > 0 ==> s[..i] != "";
    }
    if Matches(PART, s) {
      assert Matches(Optional(SCOPE), s[..0]) && Matches(PART, s[0..]);
    }
    if i :| 0 < i <= |s| && Matches(SCOPE, s[..i]) && Matches(PART, s[i..]) {
      assert Matches(Optional(SCOPE), s[..i]);
    }
  }

  /** The names accepted are those the pattern matches in full. */
  lemma PatternExactly(name: string)
    ensures IsValidPackageName(name) <==> Matches(PATTERN, name)
  {
    hide IsNamePart, Matches, SCOPE, PART;
    PatternSplits(name);
    PartExactly(name);
    forall i | 0 < i <= |name|
      ensures Matches(SCOPE, name[..i]) && Matches(PART, name[i..])
              <==> (&& i >= 2 && name[0] == '@' && name[i - 1] == '/' && IsNamePart(name[1..i - 1])
                    && IsNamePart(name[i..]))
    {
      ScopeExactly(name[..i]);
      PartExactly(name[i..]);
      if i >= 2 {
        assert name[..i][1..i - 1] == name[1..i - 1];
      }
    }
    if IsValidPackageName(name) && !IsNamePart(name) {
      var i :| 0 < i < |name| && name[i] == '/' && IsNamePart(name[1..i]) && IsNamePart(name[i + 1..]);
      assert name[i + 1 - 1] == '/' && name[1..i + 1 - 1] == name[1..i];
      assert Matches(SCOPE, name[..i + 1]) && Matches(PART, name[i + 1..]);
    }
    if i :| 0 < i <= |name| && Matches(SCOPE, name[..i]) && Matches(PART, name[i..]) {
      assert name[i - 1] == '/' && name[i - 1 + 1..] == name[i..];
    }
  }
}
