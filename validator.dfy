/**
 * The input validator of the contact form (src/utils/validateInput.ts).
 *
 * `ValidateInput` checks its three fields in a fixed order: first that none is
 * missing or empty, then that the email matches `^[^\s@]+@[^\s@]+\.[^\s@]+$`.
 * The pattern is given twice: as the regular expression reads
 * (`MatchesEmailPattern`, a concatenation of five pieces) and as a structural
 * predicate on the string (`EmailShape`, one '@', no white space, a non-empty
 * local part, a dot inside the domain), and `EmailShapeIsPattern` proves that
 * the two agree.
 */
module Validator {
  import opened Wrappers
  import opened JsValues

  const AllFieldsRequired := "All fields are required."
  const InvalidEmailFormat := "Invalid email format."

  /**
   * The class `\s` of ECMAScript regular expressions: the WhiteSpace and
   * LineTerminator code points (tab, vertical tab, form feed, space, no-break
   * space, byte order mark, the Unicode space separators, LF, CR, LS and PS).
   */
  predicate IsSpace(c: char) {
    c == '\t' || c == '\n' || c == '\U{000B}' || c == '\U{000C}' || c == '\r' || c == ' '
    || c == '\U{00A0}' || c == '\U{1680}' || ('\U{2000}' <= c && c <= '\U{200A}')
    || c == '\U{2028}' || c == '\U{2029}' || c == '\U{202F}' || c == '\U{205F}'
    || c == '\U{3000}' || c == '\U{FEFF}'
  }

  /** A character of the class `[^\s@]`. */
  predicate InClass(c: char) {
    !IsSpace(c) && c != '@'
  }

  /** `[^\s@]+`: a non-empty run of characters of the class. */
  ghost predicate ClassRun(s: string) {
    |s| > 0 && forall i :: 0 <= i < |s| ==> InClass(s[i])
  }

  /** The string the pattern spells out from its three runs: local part, host and top-level domain. */
  function Assemble(local: string, host: string, tld: string): string {
    local + "@" + host + "." + tld
  }

  /** `^[^\s@]+@[^\s@]+\.[^\s@]+$`: the whole string is a run, '@', a run, '.', a run. */
  ghost predicate MatchesEmailPattern(s: string) {
    exists local, host, tld :: s == Assemble(local, host, tld) && ClassRun(local) && ClassRun(host) && ClassRun(tld)
  }

  /** No character of `s` is white space. */
  predicate NoSpace(s: string) {
    forall i :: 0 <= i < |s| ==> !IsSpace(s[i])
  }

  /** The index of the first `c` in `s`, or `|s|` when `s` has none. */
  function IndexOf(s: string, c: char): (k: nat)
    ensures k <= |s|
    ensures k < |s| ==> s[k] == c
    ensures forall j :: 0 <= j < k ==> s[j] != c
  {
    if s == [] then 0
    else if s[0] == c then 0
    else 1 + IndexOf(s[1..], c)
  }

  /** `d` has a '.' that is neither its first nor its last character. */
  predicate HasInnerDot(d: string) {
    exists i :: 0 < i < |d| - 1 && d[i] == '.'
  }

  /**
   * The shape of an accepted email: no white space, exactly one '@', a
   * non-empty part before it, and a part after it with an inner '.'.
   */
  predicate EmailShape(s: string) {
    NoSpace(s) && multiset(s)['@'] == 1 &&
    var at := IndexOf(s, '@');
    0 < at < |s| && HasInnerDot(s[at + 1..])
  }

  /** The validator: missing or empty fields first, then the email pattern; `None` means valid. */
  function ValidateInput(name: Option<string>, email: Option<string>, message: Option<string>): (r: Option<string>)
    ensures r == None || r == Some(AllFieldsRequired) || r == Some(InvalidEmailFormat)
    ensures !(Truthy(name) && Truthy(email) && Truthy(message)) ==> r == Some(AllFieldsRequired)
    ensures (Truthy(name) && Truthy(email) && Truthy(message) && !MatchesEmailPattern(email.value))
              ==> r == Some(InvalidEmailFormat)
    ensures r == None <==> Truthy(name) && Truthy(email) && Truthy(message) && MatchesEmailPattern(email.value)
  {
    if !Truthy(name) || !Truthy(email) || !Truthy(message) then Some(AllFieldsRequired)
    else
      EmailShapeIsPattern(email.value);
      if !EmailShape(email.value) then Some(InvalidEmailFormat) else None
  }

  /** '@' occurs nowhere in a string made of class characters. */
  lemma {:induction false} RunHasNoAt(s: string)
    requires forall i :: 0 <= i < |s| ==> InClass(s[i])
    ensures multiset(s)['@'] == 0
  {
    if s != [] {
      assert s == [s[0]] + s[1..];
      RunHasNoAt(s[1..]);
    }
  }

  /** A string with a single '@' has it nowhere but at the place it is known to be. */
  lemma SingleAt(s: string, k: nat)
    requires k < |s| && s[k] == '@' && multiset(s)['@'] == 1
    ensures forall j :: 0 <= j < |s| && j != k ==> s[j] != '@'
  {
    assert s == s[..k] + [s[k]] + s[k + 1..];
    assert multiset(s) == multiset(s[..k]) + multiset{'@'} + multiset(s[k + 1..]);
    forall j | 0 <= j < |s| && j != k ensures s[j] != '@' {
      if j < k {
        assert s[j] in multiset(s[..k]) by { assert s[..k][j] == s[j]; }
      } else {
        assert s[j] in multiset(s[k + 1..]) by { assert s[k + 1..][j - k - 1] == s[j]; }
      }
    }
  }

  /** A non-empty slice without white space and without '@' is a run of the class. */
  lemma SliceIsRun(s: string, lo: nat, hi: nat)
    requires lo < hi <= |s| && NoSpace(s)
    requires forall j :: lo <= j < hi ==> s[j] != '@'
    ensures ClassRun(s[lo..hi])
  {
    forall j | 0 <= j < hi - lo ensures InClass(s[lo..hi][j]) {
      assert s[lo..hi][j] == s[lo + j];
    }
  }

  /** A string with '@' at `at` and '.' at `dot` is the pattern's assembly of the three slices around them. */
  lemma SplitAround(s: string, at: nat, dot: nat)
    requires at < dot < |s| && s[at] == '@' && s[dot] == '.'
    ensures s == Assemble(s[..at], s[at + 1..dot], s[dot + 1..])
  {
    assert s == s[..at] + [s[at]] + s[at + 1..];
    assert s[at + 1..] == s[at + 1..dot] + [s[dot]] + s[dot + 1..];
  }

  /** Every string of the structural shape matches the pattern. */
  lemma ShapeMatchesPattern(s: string)
    requires EmailShape(s)
    ensures MatchesEmailPattern(s)
  {
    var at := IndexOf(s, '@');
    var i :| 0 < i < |s[at + 1..]| - 1 && s[at + 1..][i] == '.';
    var dot := at + 1 + i;
    assert s[dot] == '.';
    SingleAt(s, at);
    var local, host, tld := s[..at], s[at + 1..dot], s[dot + 1..];
    SliceIsRun(s, 0, at);
    assert s[0..at] == local;
    SliceIsRun(s, at + 1, dot);
    SliceIsRun(s, dot + 1, |s|);
    assert s[dot + 1..|s|] == tld;
    SplitAround(s, at, dot);
    assert s == Assemble(local, host, tld) && ClassRun(local) && ClassRun(host) && ClassRun(tld);
  }

  /** Every string the pattern matches has the structural shape. */
  lemma PatternHasShape(local: string, host: string, tld: string)
    requires ClassRun(local) && ClassRun(host) && ClassRun(tld)
    ensures EmailShape(Assemble(local, host, tld))
  {
    var s := Assemble(local, host, tld);
    RunHasNoAt(local);
    RunHasNoAt(host);
    RunHasNoAt(tld);
    assert multiset(s) == multiset(local) + multiset{'@'} + multiset(host) + multiset{'.'} + multiset(tld);
    assert NoSpace(s) by {
      forall j | 0 <= j < |s| ensures !IsSpace(s[j]) {
        if j < |local| {
          assert s[j] == local[j];
        } else if j == |local| {
          assert s[j] == '@';
        } else if j < |local| + 1 + |host| {
          assert s[j] == host[j - |local| - 1];
        } else if j == |local| + 1 + |host| {
          assert s[j] == '.';
        } else {
          assert s[j] == tld[j - |local| - 2 - |host|];
        }
      }
    }
    var at := IndexOf(s, '@');
    assert s[|local|] == '@';
    assert forall j :: 0 <= j < |local| ==> s[j] == local[j];
    assert at == |local|;
    var d := s[at + 1..];
    assert d == host + "." + tld;
    assert d[|host|] == '.';
  }

  /** The structural predicate and the regular expression accept the same strings. */
  lemma EmailShapeIsPattern(s: string)
    ensures EmailShape(s) <==> MatchesEmailPattern(s)
  {
    if EmailShape(s) {
      ShapeMatchesPattern(s);
    }
    if MatchesEmailPattern(s) {
      var local, host, tld :| s == Assemble(local, host, tld) && ClassRun(local) && ClassRun(host) && ClassRun(tld);
      PatternHasShape(local, host, tld);
    }
  }

  /**
   * An email the validator accepts has exactly one '@', no white space, a
   * non-empty part before the '@', and a '.' after the '@' that is neither the
   * first nor the last character of that part.
   */
  lemma AcceptedEmailShape(name: Option<string>, email: Option<string>, message: Option<string>)
    requires ValidateInput(name, email, message) == None
    ensures email.Some?
    ensures multiset(email.value)['@'] == 1 && NoSpace(email.value)
    ensures var at := IndexOf(email.value, '@');
      0 < at < |email.value| && email.value[at] == '@' && HasInnerDot(email.value[at + 1..])
  {
    EmailShapeIsPattern(email.value);
  }

  /** No trimming: a name and a message made only of white space count as present. */
  lemma WhiteSpaceIsPresent(name: string, email: string, message: string)
    requires |name| > 0 && |message| > 0
    requires forall i :: 0 <= i < |name| ==> IsSpace(name[i])
    requires forall i :: 0 <= i < |message| ==> IsSpace(message[i])
    requires MatchesEmailPattern(email)
    ensures ValidateInput(Some(name), Some(email), Some(message)) == None
  {
  }

  /** "a@b.com" and "ada@example.com" match the pattern. */
  lemma AcceptsExampleAddresses()
    ensures MatchesEmailPattern("a@b.com")
    ensures MatchesEmailPattern("ada@example.com")
  {
    assert "a@b.com" == Assemble("a", "b", "com");
    assert ClassRun("a") && ClassRun("b") && ClassRun("com");
    assert "ada@example.com" == Assemble("ada", "example", "com");
    assert ClassRun("ada") && ClassRun("example");
  }

  /** The submission ("Ada", "ada@example.com", "Hello") passes validation. */
  lemma AcceptsAdaSubmission()
    ensures ValidateInput(Some("Ada"), Some("ada@example.com"), Some("Hello")) == None
  {
    AcceptsExampleAddresses();
  }

  /** A string the pattern matches contains an '@'. */
  lemma PatternNeedsAt(s: string)
    requires MatchesEmailPattern(s)
    ensures '@' in s
  {
    var local, host, tld :| s == Assemble(local, host, tld) && ClassRun(local) && ClassRun(host) && ClassRun(tld);
    assert s[|local|] == '@';
  }

  /** "not-an-email" does not match the pattern: it has no '@'. */
  lemma RejectsAddressWithoutAt()
    ensures !MatchesEmailPattern("not-an-email")
  {
    var s := "not-an-email";
    assert '@' !in s;
    if MatchesEmailPattern(s) {
      PatternNeedsAt(s);
    }
  }
}
