/** The four payment and conference-field validators. Each is a Django
    `RegexValidator`, which calls Python's `re.search` with a pattern of the
    shape `^ atom atom ... $`. The patterns are written here as data and run
    by one small matcher; lemmas then state in plain terms which strings each
    validator accepts. */
module Validators {
  import opened Strings

  /** A bracket expression such as `[a-zA-Z0-9_-]`, as inclusive ranges. */
  type CharClass = seq<(char, char)>

  predicate InClass(cls: CharClass, c: char) {
    exists i :: 0 <= i < |cls| && cls[i].0 <= c <= cls[i].1
  }

  /** The pattern pieces these validators use: a literal character, and a
      bracket expression under `+`. */
  datatype Atom = Lit(c: char) | OneOrMore(cls: CharClass)

  /** Does the atom sequence `p` consume exactly all of `s`? Backtracking search
      is stated as "some way of splitting `s` works". */
  predicate MatchesAll(p: seq<Atom>, s: string)
    decreases |s|, |p|
  {
    if p == [] then s == []
    else if s == [] then false
    else match p[0]
      case Lit(c) => s[0] == c && MatchesAll(p[1..], s[1..])
      case OneOrMore(cls) =>
        InClass(cls, s[0]) && (MatchesAll(p[1..], s[1..]) || MatchesAll(p, s[1..]))
  }

  /** `re.search("^" + p + "$", s)` without MULTILINE: `^` only at the start,
      and `$` at the very end or just before a single final newline. */
  predicate AnchoredSearch(p: seq<Atom>, s: string) {
    MatchesAll(p, s) || (|s| > 0 && s[|s| - 1] == '\n' && MatchesAll(p, s[..|s| - 1]))
  }

  /** `[a-zA-Z0-9_-]` */
  const UsernameClass: CharClass := [('a', 'z'), ('A', 'Z'), ('0', '9'), ('_', '_'), ('-', '-')]
  /** `[0-9+,#]` */
  const PhoneClass: CharClass := [('0', '9'), ('+', '+'), (',', ','), ('#', '#')]
  /** `[a-zA-Z0-9]` */
  const AlnumClass: CharClass := [('a', 'z'), ('A', 'Z'), ('0', '9')]

  /** `^\$[a-zA-Z0-9_-]+$` */
  const CashAppPattern: seq<Atom> := [Lit('$'), OneOrMore(UsernameClass)]
  /** `^[0-9+,#]+$` */
  const ConferencePhonePattern: seq<Atom> := [OneOrMore(PhoneClass)]
  /** `^[a-zA-Z0-9]+$` */
  const PayPalPattern: seq<Atom> := [OneOrMore(AlnumClass)]
  /** `^@[a-zA-Z0-9_-]+$` */
  const VenmoPattern: seq<Atom> := [Lit('@'), OneOrMore(UsernameClass)]

  predicate CashAppUsername(s: string) { AnchoredSearch(CashAppPattern, s) }

  predicate ConferencePhone(s: string) { AnchoredSearch(ConferencePhonePattern, s) }

  predicate PayPalUsername(s: string) { AnchoredSearch(PayPalPattern, s) }

  predicate VenmoUsername(s: string) { AnchoredSearch(VenmoPattern, s) }

  // ---------------------------------------------------------------------------
  // Plain-language descriptions of what the patterns accept

  predicate IsUsernameChar(c: char) { IsAsciiAlnum(c) || c == '_' || c == '-' }

  predicate IsPhoneChar(c: char) { IsAsciiDigit(c) || c == '+' || c == ',' || c == '#' }

  /** A handle: the given first character, then at least one username character. */
  predicate IsHandle(lead: char, t: string) {
    |t| >= 2 && t[0] == lead && forall i :: 1 <= i < |t| ==> IsUsernameChar(t[i])
  }

  predicate IsPhoneLine(t: string) {
    |t| >= 1 && forall i :: 0 <= i < |t| ==> IsPhoneChar(t[i])
  }

  predicate IsAlnumLine(t: string) {
    |t| >= 1 && forall i :: 0 <= i < |t| ==> IsAsciiAlnum(t[i])
  }

  /** `s` ends with one newline; what comes before it is `Chomp(s)`. */
  predicate EndsWithNewline(s: string) { |s| > 0 && s[|s| - 1] == '\n' }

  function Chomp(s: string): (t: string)
    requires EndsWithNewline(s)
    ensures t + "\n" == s
  {
    s[..|s| - 1]
  }

  lemma UsernameClassIs(c: char)
    ensures InClass(UsernameClass, c) <==> IsUsernameChar(c)
  {
    if IsUsernameChar(c) {
      if IsAsciiLower(c) { assert UsernameClass[0].0 <= c <= UsernameClass[0].1; }
      else if IsAsciiUpper(c) { assert UsernameClass[1].0 <= c <= UsernameClass[1].1; }
      else if IsAsciiDigit(c) { assert UsernameClass[2].0 <= c <= UsernameClass[2].1; }
      else if c == '_' { assert UsernameClass[3].0 <= c <= UsernameClass[3].1; }
      else { assert UsernameClass[4].0 <= c <= UsernameClass[4].1; }
    }
  }

  lemma PhoneClassIs(c: char)
    ensures InClass(PhoneClass, c) <==> IsPhoneChar(c)
  {
    if IsPhoneChar(c) {
      if IsAsciiDigit(c) { assert PhoneClass[0].0 <= c <= PhoneClass[0].1; }
      else if c == '+' { assert PhoneClass[1].0 <= c <= PhoneClass[1].1; }
      else if c == ',' { assert PhoneClass[2].0 <= c <= PhoneClass[2].1; }
      else { assert PhoneClass[3].0 <= c <= PhoneClass[3].1; }
    }
  }

  lemma AlnumClassIs(c: char)
    ensures InClass(AlnumClass, c) <==> IsAsciiAlnum(c)
  {
    if IsAsciiAlnum(c) {
      if IsAsciiLower(c) { assert AlnumClass[0].0 <= c <= AlnumClass[0].1; }
      else if IsAsciiUpper(c) { assert AlnumClass[1].0 <= c <= AlnumClass[1].1; }
      else { assert AlnumClass[2].0 <= c <= AlnumClass[2].1; }
    }
  }

  /** `[...]+` alone consumes exactly the non-empty strings drawn from the class. */
  lemma {:induction false} OneOrMoreMatches(cls: CharClass, s: string)
    ensures MatchesAll([OneOrMore(cls)], s) <==>
      |s| >= 1 && forall i :: 0 <= i < |s| ==> InClass(cls, s[i])
    decreases |s|
  {
    var p := [OneOrMore(cls)];
    if s != [] {
      assert p[1..] == [];
      OneOrMoreMatches(cls, s[1..]);
      assert forall i :: 1 <= i < |s| ==> s[i] == s[1..][i - 1];
      if |s| >= 1 && forall i :: 0 <= i < |s| ==> InClass(cls, s[i]) {
        if |s| > 1 {
          assert forall i :: 0 <= i < |s[1..]| ==> s[1..][i] == s[i + 1];
        }
      }
    }
  }

  /** A literal followed by `[...]+` consumes the literal and then a non-empty run. */
  lemma LitThenOneOrMore(c: char, cls: CharClass, s: string)
    ensures MatchesAll([Lit(c), OneOrMore(cls)], s) <==>
      |s| >= 2 && s[0] == c && forall i :: 1 <= i < |s| ==> InClass(cls, s[i])
  {
    var p := [Lit(c), OneOrMore(cls)];
    if s != [] {
      assert p[1..] == [OneOrMore(cls)];
      OneOrMoreMatches(cls, s[1..]);
      assert forall i :: 1 <= i < |s| ==> s[i] == s[1..][i - 1];
    }
  }

  /** The CashApp validator accepts exactly `$` followed by one or more of
      `[A-Za-z0-9_-]`, optionally followed by one final newline. */
  lemma CashAppExactly(s: string)
    ensures CashAppUsername(s) <==>
      IsHandle('$', s) || (EndsWithNewline(s) && IsHandle('$', Chomp(s)))
  {
    forall c: char { UsernameClassIs(c); }
    LitThenOneOrMore('$', UsernameClass, s);
    if EndsWithNewline(s) {
      LitThenOneOrMore('$', UsernameClass, Chomp(s));
    }
  }

  /** The Venmo validator accepts exactly `@` followed by one or more of
      `[A-Za-z0-9_-]`, optionally followed by one final newline. */
  lemma VenmoExactly(s: string)
    ensures VenmoUsername(s) <==>
      IsHandle('@', s) || (EndsWithNewline(s) && IsHandle('@', Chomp(s)))
  {
    forall c: char { UsernameClassIs(c); }
    LitThenOneOrMore('@', UsernameClass, s);
    if EndsWithNewline(s) {
      LitThenOneOrMore('@', UsernameClass, Chomp(s));
    }
  }

  /** The conference-phone validator accepts exactly the non-empty strings over
      digits, `+`, `,` and `#`, optionally followed by one final newline. */
  lemma ConferencePhoneExactly(s: string)
    ensures ConferencePhone(s) <==>
      IsPhoneLine(s) || (EndsWithNewline(s) && IsPhoneLine(Chomp(s)))
  {
    forall c: char { PhoneClassIs(c); }
    OneOrMoreMatches(PhoneClass, s);
    if EndsWithNewline(s) {
      OneOrMoreMatches(PhoneClass, Chomp(s));
    }
  }

  /** The PayPal validator accepts exactly the non-empty ASCII-alphanumeric
      strings, optionally followed by one final newline. */
  lemma PayPalExactly(s: string)
    ensures PayPalUsername(s) <==>
      IsAlnumLine(s) || (EndsWithNewline(s) && IsAlnumLine(Chomp(s)))
  {
    forall c: char { AlnumClassIs(c); }
    OneOrMoreMatches(AlnumClass, s);
    if EndsWithNewline(s) {
      OneOrMoreMatches(AlnumClass, Chomp(s));
    }
  }

  /** On input without a newline, `$` is a plain end anchor. */
  lemma WithoutNewline(s: string)
    requires '\n' !in s
    ensures CashAppUsername(s) <==> IsHandle('$', s)
    ensures VenmoUsername(s) <==> IsHandle('@', s)
    ensures ConferencePhone(s) <==> IsPhoneLine(s)
    ensures PayPalUsername(s) <==> IsAlnumLine(s)
  {
    CashAppExactly(s);
    VenmoExactly(s);
    ConferencePhoneExactly(s);
    PayPalExactly(s);
  }

  /** `+` needs at least one character, so no validator accepts "". */
  lemma EmptyRejected()
    ensures !CashAppUsername("") && !VenmoUsername("")
    ensures !ConferencePhone("") && !PayPalUsername("")
  {
  }

  /** No string is both a Venmo and a CashApp username: their first characters differ. */
  lemma VenmoCashAppDisjoint(s: string)
    ensures !(VenmoUsername(s) && CashAppUsername(s))
  {
    VenmoExactly(s);
    CashAppExactly(s);
  }

  /** A valid PayPal username is neither a Venmo nor a CashApp username:
      `@` and `$` are not alphanumeric. */
  lemma PayPalExcludesHandles(s: string)
    requires PayPalUsername(s)
    ensures !VenmoUsername(s) && !CashAppUsername(s)
  {
    PayPalExactly(s);
    VenmoExactly(s);
    CashAppExactly(s);
    if EndsWithNewline(s) && IsAlnumLine(Chomp(s)) {
      assert Chomp(s)[0] == s[0];
    }
  }

  /** The example in the field's help text is accepted. */
  lemma ZoomExampleAccepted()
    ensures ConferencePhone("+19294362866,,2151234215#,,#,,12341234#")
  {
    var s := "+19294362866,,2151234215#,,#,,12341234#";
    ConferencePhoneExactly(s);
    assert IsPhoneLine(s);
  }

  /** The docstring speaks of 8-16 characters, but the pattern has no length
      bound: a one-character and a seventeen-character name both pass. */
  lemma PayPalHasNoLengthBound()
    ensures PayPalUsername("a")
    ensures PayPalUsername("abcdefghijklmnopq")
  {
    PayPalExactly("a");
    PayPalExactly("abcdefghijklmnopq");
    assert IsAlnumLine("abcdefghijklmnopq");
  }
}
