/**
 * The two input validators of the contact step, `validar_correo` and
 * `validar_telefono`. Each anchored regular expression is modelled as an
 * explicit finite automaton run over the characters of the string, and each
 * automaton is proved equal to a plain-words description of the accepted
 * strings.
 *
 * Assumptions: `\w` and `\d` are restricted to ASCII. Python's `re.match`
 * with a final `$` also accepts one trailing line feed ("a@b.c\n" is a valid
 * address); both automata model that.
 */
module Validators {

  /** `\w` restricted to ASCII: letters, digits and the underscore. */
  predicate IsWordChar(c: char) {
    ('a' <= c <= 'z') || ('A' <= c <= 'Z') || ('0' <= c <= '9') || c == '_'
  }

  /** `\d` restricted to ASCII. */
  predicate IsDigit(c: char) {
    '0' <= c <= '9'
  }

  /** The character class `[\w\.-]`. */
  predicate IsAddressChar(c: char) {
    IsWordChar(c) || c == '.' || c == '-'
  }

  predicate AllAddressChars(s: string) {
    forall i :: 0 <= i < |s| ==> IsAddressChar(s[i])
  }

  predicate AllWordChars(s: string) {
    forall i :: 0 <= i < |s| ==> IsWordChar(s[i])
  }

  predicate AllDigits(s: string) {
    forall i :: 0 <= i < |s| ==> IsDigit(s[i])
  }

  // ---------------------------------------------------------------------
  // Email: ^[\w\.-]+@[\w\.-]+\.\w+$
  // ---------------------------------------------------------------------

  /** Plain words: `d` is made of address characters and has a '.' that is
      not its first character, followed by one or more word characters up to
      the end (that '.' is then the last '.' of `d`). */
  ghost predicate IsDomain(d: string) {
    AllAddressChars(d) &&
    exists k :: 1 <= k < |d| - 1 && d[k] == '.' && AllWordChars(d[k + 1..])
  }

  /** Plain words: a non-empty local part of address characters, one '@',
      and a domain. */
  ghost predicate IsAddress(t: string) {
    exists i :: 0 < i < |t| && t[i] == '@' && AllAddressChars(t[..i]) && IsDomain(t[i + 1..])
  }

  /** What the anchored pattern accepts under `re.match`: an address, or an
      address followed by a single line feed. */
  ghost predicate EmailSpec(s: string) {
    IsAddress(s) || (0 < |s| && s[|s| - 1] == '\n' && IsAddress(s[..|s| - 1]))
  }

  /** States of the recognizer: what has been read so far. */
  datatype EmailState =
    | LocalEmpty     // nothing read
    | Local          // a non-empty local part
    | DomainEmpty    // local part and '@'
    | Domain         // a non-empty domain that cannot end the address here
    | DomainDot      // the domain ends in a '.' that is not its first character
    | DomainEnd      // a complete address
    | FinalNewline   // a complete address and the line feed `$` tolerates
    | Reject

  function EmailStep(q: EmailState, c: char): (next: EmailState) {
    match q
    case LocalEmpty => if IsAddressChar(c) then Local else Reject
    case Local => if IsAddressChar(c) then Local else if c == '@' then DomainEmpty else Reject
    case DomainEmpty => if IsAddressChar(c) then Domain else Reject
    case Domain => if c == '.' then DomainDot else if IsAddressChar(c) then Domain else Reject
    case DomainDot =>
      if c == '.' then DomainDot
      else if IsWordChar(c) then DomainEnd
      else if c == '-' then Domain
      else Reject
    case DomainEnd =>
      if IsWordChar(c) then DomainEnd
      else if c == '.' then DomainDot
      else if c == '-' then Domain
      else if c == '\n' then FinalNewline
      else Reject
    case FinalNewline => Reject
    case Reject => Reject
  }

  function EmailRun(q: EmailState, s: string): (last: EmailState)
    decreases |s|
  {
    if s == [] then q else EmailRun(EmailStep(q, s[0]), s[1..])
  }

  /** `validar_correo`. */
  function IsValidEmail(s: string): (valid: bool) {
    var q := EmailRun(LocalEmpty, s);
    q == DomainEnd || q == FinalNewline
  }

  lemma {:induction false} EmailRunAppend(q: EmailState, a: string, b: string)
    ensures EmailRun(q, a + b) == EmailRun(EmailRun(q, a), b)
    decreases |a|
  {
    if a == [] {
      assert a + b == b;
    } else {
      assert (a + b)[0] == a[0];
      assert (a + b)[1..] == a[1..] + b;
      EmailRunAppend(EmailStep(q, a[0]), a[1..], b);
    }
  }

  lemma EmailRunSnoc(q: EmailState, a: string, c: char)
    ensures EmailRun(q, a + [c]) == EmailStep(EmailRun(q, a), c)
  {
    EmailRunAppend(q, a, [c]);
    assert [c][1..] == [];
  }

  lemma AllAddressCharsSnoc(a: string, c: char)
    ensures AllAddressChars(a + [c]) <==> AllAddressChars(a) && IsAddressChar(c)
  {
    if AllAddressChars(a) && IsAddressChar(c) {
      forall i | 0 <= i < |a + [c]| ensures IsAddressChar((a + [c])[i]) {
        if i < |a| { assert (a + [c])[i] == a[i]; }
      }
    }
    if AllAddressChars(a + [c]) {
      forall i | 0 <= i < |a| ensures IsAddressChar(a[i]) {
        assert (a + [c])[i] == a[i];
      }
      assert (a + [c])[|a|] == c;
    }
  }

  lemma {:induction false} EmailRejectStays(s: string)
    ensures EmailRun(Reject, s) == Reject
    decreases |s|
  {
    if s != [] {
      EmailRejectStays(s[1..]);
    }
  }

  /** Reading a local part from the start: no '@' in it yet. */
  lemma {:induction false} LocalRun(s: string)
    requires forall i :: 0 <= i < |s| ==> s[i] != '@'
    ensures EmailRun(LocalEmpty, s) ==
      if s == [] then LocalEmpty else if AllAddressChars(s) then Local else Reject
    decreases |s|
  {
    if s != [] {
      var a, c := s[..|s| - 1], s[|s| - 1];
      assert s == a + [c];
      LocalRun(a);
      EmailRunSnoc(LocalEmpty, a, c);
      AllAddressCharsSnoc(a, c);
    }
  }

  /** A domain ends in a word character. */
  lemma DomainEndsInWord(d: string)
    requires IsDomain(d)
    ensures 3 <= |d| && IsWordChar(d[|d| - 1])
  {
    var k :| 1 <= k < |d| - 1 && d[k] == '.' && AllWordChars(d[k + 1..]);
    assert d[k + 1..][|d| - k - 2] == d[|d| - 1];
  }

  /** Appending a word character completes a domain exactly when the domain
      was already complete or ended in a usable '.'. */
  lemma DomainSnocWord(a: string, c: char)
    requires AllAddressChars(a) && IsWordChar(c)
    ensures IsDomain(a + [c]) <==> IsDomain(a) || (2 <= |a| && a[|a| - 1] == '.')
  {
    var d := a + [c];
    AllAddressCharsSnoc(a, c);
    if IsDomain(a) {
      var k :| 1 <= k < |a| - 1 && a[k] == '.' && AllWordChars(a[k + 1..]);
      assert d[k + 1..] == a[k + 1..] + [c];
      assert d[k] == '.';
      var e, f := d[k + 1..], a[k + 1..];
      assert AllWordChars(e) by {
        forall j | 0 <= j < |e| ensures IsWordChar(e[j]) {
          if j < |f| { assert e[j] == f[j]; }
        }
      }
    } else if 2 <= |a| && a[|a| - 1] == '.' {
      var k := |a| - 1;
      assert d[k + 1..] == [c];
      assert d[k] == '.';
    }
    if IsDomain(d) {
      var k :| 1 <= k < |d| - 1 && d[k] == '.' && AllWordChars(d[k + 1..]);
      if k < |a| - 1 {
        assert d[k + 1..] == a[k + 1..] + [c];
        assert a[k] == '.';
        var e, f := d[k + 1..], a[k + 1..];
        assert AllWordChars(f) by {
          forall j | 0 <= j < |f| ensures IsWordChar(f[j]) {
            assert f[j] == e[j];
          }
        }
      } else {
        assert a[|a| - 1] == d[k];
      }
    }
  }

  /** Appending anything but a word character never leaves a domain. */
  lemma DomainSnocOther(a: string, c: char)
    requires !IsWordChar(c)
    ensures !IsDomain(a + [c])
  {
    if IsDomain(a + [c]) {
      DomainEndsInWord(a + [c]);
    }
  }

  /** The state reached after reading `d` following the '@', in plain words. */
  ghost function DomainState(d: string): EmailState {
    if AllAddressChars(d) then
      if d == [] then DomainEmpty
      else if IsDomain(d) then DomainEnd
      else if 2 <= |d| && d[|d| - 1] == '.' then DomainDot
      else Domain
    else if 0 < |d| && d[|d| - 1] == '\n' && IsDomain(d[..|d| - 1]) then FinalNewline
    else Reject
  }

  lemma DomainStateSnoc(a: string, c: char)
    ensures DomainState(a + [c]) == EmailStep(DomainState(a), c)
  {
    var d := a + [c];
    assert d[..|d| - 1] == a;
    assert d[|d| - 1] == c;
    AllAddressCharsSnoc(a, c);
    if IsDomain(a) {
      DomainEndsInWord(a);
    }
    if IsWordChar(c) {
      if AllAddressChars(a) {
        DomainSnocWord(a, c);
      }
    } else {
      DomainSnocOther(a, c);
    }
  }

  lemma {:induction false} DomainRun(d: string)
    ensures EmailRun(DomainEmpty, d) == DomainState(d)
    decreases |d|
  {
    if d != [] {
      var a, c := d[..|d| - 1], d[|d| - 1];
      assert d == a + [c];
      DomainRun(a);
      EmailRunSnoc(DomainEmpty, a, c);
      DomainStateSnoc(a, c);
    }
  }

  /** The position of the first '@', or |s| when there is none. */
  function FirstAt(s: string): (i: nat)
    ensures i <= |s|
    ensures i < |s| ==> s[i] == '@'
    ensures forall j :: 0 <= j < i ==> s[j] != '@'
  {
    if s == [] then 0 else if s[0] == '@' then 0 else 1 + FirstAt(s[1..])
  }

  /** An '@' preceded only by address characters is the first '@'. */
  lemma OnlyFirstAt(t: string, i: nat, j: nat)
    requires i <= |t| && (i < |t| ==> t[i] == '@')
    requires forall k :: 0 <= k < i ==> t[k] != '@'
    requires j < |t| && t[j] == '@' && AllAddressChars(t[..j])
    ensures i == j
  {
    assert forall k :: 0 <= k < j ==> t[..j][k] == t[k];
  }

  /** The '@' of an address is its first '@'. */
  lemma AddressAtFirst(t: string, i: nat)
    requires i <= |t| && (i < |t| ==> t[i] == '@')
    requires forall j :: 0 <= j < i ==> t[j] != '@'
    ensures IsAddress(t) <==>
      i < |t| && 0 < i && AllAddressChars(t[..i]) && IsDomain(t[i + 1..])
  {
    if IsAddress(t) {
      var j :| 0 < j < |t| && t[j] == '@' && AllAddressChars(t[..j]) && IsDomain(t[j + 1..]);
      OnlyFirstAt(t, i, j);
    }
  }

  /** An address followed by a line feed, split at the first '@'. */
  lemma NewlineAddressAtFirst(s: string, i: nat)
    requires i == FirstAt(s) && 0 < |s| && s[|s| - 1] == '\n'
    ensures IsAddress(s[..|s| - 1]) <==>
      i < |s| && 0 < i && AllAddressChars(s[..i]) && DomainAndNewline(s[i + 1..])
  {
    var t := s[..|s| - 1];
    var i' := if i < |t| then i else |t|;
    forall j | 0 <= j < i' ensures t[j] != '@' {
      assert t[j] == s[j];
    }
    AddressAtFirst(t, i');
    if i < |t| {
      var r := s[i + 1..];
      assert t[..i] == s[..i];
      assert t[i + 1..] == r[..|r| - 1];
      LineFeedDomain(r);
    }
  }

  /** A domain, possibly followed by the line feed `$` tolerates. */
  ghost predicate DomainAndNewline(r: string) {
    IsDomain(r) || (0 < |r| && r[|r| - 1] == '\n' && IsDomain(r[..|r| - 1]))
  }

  lemma DomainStateAccepts(r: string)
    ensures (DomainState(r) == DomainEnd || DomainState(r) == FinalNewline) <==> DomainAndNewline(r)
  {
    if 0 < |r| && r[|r| - 1] == '\n' {
      assert !IsAddressChar(r[|r| - 1]);
    }
  }

  /** Without a final line feed, only a bare domain qualifies. */
  lemma PlainDomain(r: string)
    requires !(0 < |r| && r[|r| - 1] == '\n')
    ensures DomainAndNewline(r) <==> IsDomain(r)
  {
  }

  /** With a final line feed, only a domain before it qualifies. */
  lemma LineFeedDomain(r: string)
    requires 0 < |r| && r[|r| - 1] == '\n'
    ensures DomainAndNewline(r) <==> IsDomain(r[..|r| - 1])
  {
    if IsDomain(r) {
      DomainEndsInWord(r);
    }
  }

  /** Reading what follows the '@' ends in an accepting state exactly for a
      domain, possibly followed by a line feed. */
  lemma AfterAt(r: string)
    ensures (EmailRun(DomainEmpty, r) == DomainEnd || EmailRun(DomainEmpty, r) == FinalNewline)
      <==> DomainAndNewline(r)
  {
    DomainRun(r);
    DomainStateAccepts(r);
  }

  /** The run splits around an '@'. */
  lemma EmailRunSplit(s: string, i: nat)
    requires i < |s| && s[i] == '@'
    ensures EmailRun(LocalEmpty, s) == EmailRun(EmailStep(EmailRun(LocalEmpty, s[..i]), '@'), s[i + 1..])
  {
    var l, r := s[..i], s[i + 1..];
    assert s == l + (['@'] + r);
    var ql := EmailRun(LocalEmpty, l);
    EmailRunAppend(LocalEmpty, l, ['@'] + r);
    EmailRunAppend(ql, ['@'], r);
    assert EmailRun(ql, ['@']) == EmailStep(ql, '@') by {
      assert ['@'][1..] == [];
    }
  }

  /** The state after the first '@'. */
  lemma LocalThenAt(l: string)
    requires forall j :: 0 <= j < |l| ==> l[j] != '@'
    ensures EmailStep(EmailRun(LocalEmpty, l), '@') ==
      if 0 < |l| && AllAddressChars(l) then DomainEmpty else Reject
  {
    LocalRun(l);
  }

  /** The run splits at the first '@'. */
  lemma EmailRunAtFirst(s: string, i: nat)
    requires i == FirstAt(s) && i < |s|
    ensures IsValidEmail(s) <==>
      0 < i && AllAddressChars(s[..i]) && DomainAndNewline(s[i + 1..])
  {
    var l, r := s[..i], s[i + 1..];
    EmailRunSplit(s, i);
    LocalThenAt(l);
    if 0 < i && AllAddressChars(l) {
      AfterAt(r);
    } else {
      EmailRejectStays(r);
    }
  }

  /** The description splits at the first '@', for a string without a
      final line feed. */
  lemma PlainSpecAtFirst(s: string, i: nat)
    requires i == FirstAt(s) && !(0 < |s| && s[|s| - 1] == '\n')
    ensures EmailSpec(s) <==>
      i < |s| && 0 < i && AllAddressChars(s[..i]) && DomainAndNewline(s[i + 1..])
  {
    AddressAtFirst(s, i);
    if i < |s| {
      PlainDomainAfter(s, i);
    }
  }

  /** Without a final line feed, what follows an '@' is a domain or nothing. */
  lemma PlainDomainAfter(s: string, i: nat)
    requires i < |s| && !(0 < |s| && s[|s| - 1] == '\n')
    ensures DomainAndNewline(s[i + 1..]) <==> IsDomain(s[i + 1..])
  {
    var r := s[i + 1..];
    assert r == [] || r[|r| - 1] == s[|s| - 1];
    PlainDomain(r);
  }

  /** A string ending in a line feed is not itself an address: the line feed
      is not an address character, so no domain can end in it. */
  lemma LineFeedNotAddress(s: string)
    requires 0 < |s| && s[|s| - 1] == '\n'
    ensures !IsAddress(s)
  {
    forall j | 0 < j < |s| && s[j] == '@' && AllAddressChars(s[..j])
      ensures !IsDomain(s[j + 1..])
    {
      var d := s[j + 1..];
      if 0 < |d| {
        assert d[|d| - 1] == s[|s| - 1];
        assert !IsAddressChar(d[|d| - 1]);
      }
    }
  }

  /** The description splits at the first '@', for a string with a final
      line feed. */
  lemma LineFeedSpecAtFirst(s: string, i: nat)
    requires i == FirstAt(s) && 0 < |s| && s[|s| - 1] == '\n'
    ensures EmailSpec(s) <==>
      i < |s| && 0 < i && AllAddressChars(s[..i]) && DomainAndNewline(s[i + 1..])
  {
    LineFeedNotAddress(s);
    NewlineAddressAtFirst(s, i);
  }

  /** The description splits at the first '@'. */
  lemma EmailSpecAtFirst(s: string, i: nat)
    requires i == FirstAt(s)
    ensures EmailSpec(s) <==>
      i < |s| && 0 < i && AllAddressChars(s[..i]) && DomainAndNewline(s[i + 1..])
  {
    if 0 < |s| && s[|s| - 1] == '\n' {
      LineFeedSpecAtFirst(s, i);
    } else {
      PlainSpecAtFirst(s, i);
    }
  }

  /** The recognizer accepts exactly the strings the pattern describes. */
  lemma EmailCharacterization(s: string)
    ensures IsValidEmail(s) <==> EmailSpec(s)
  {
    var i := FirstAt(s);
    EmailSpecAtFirst(s, i);
    if i == |s| {
      LocalRun(s);
    } else {
      EmailRunAtFirst(s, i);
    }
  }

  lemma NoAtCount(l: string)
    requires forall j :: 0 <= j < |l| ==> l[j] != '@'
    ensures multiset(l)['@'] == 0
  {
    assert '@' !in l;
  }

  lemma NoAtInDomain(r: string)
    requires DomainAndNewline(r)
    ensures forall j :: 0 <= j < |r| ==> r[j] != '@'
  {
    if !IsDomain(r) {
      var u := r[..|r| - 1];
      assert forall j :: 0 <= j < |u| ==> r[j] == u[j];
    }
  }

  /** Every accepted address holds exactly one '@'. */
  lemma EmailHasOneAt(s: string)
    requires IsValidEmail(s)
    ensures multiset(s)['@'] == 1
  {
    var i := FirstAt(s);
    if i == |s| {
      LocalRun(s);
      assert false;
    }
    EmailRunAtFirst(s, i);
    var l, r := s[..i], s[i + 1..];
    NoAtCount(l);
    NoAtInDomain(r);
    NoAtCount(r);
    assert s == l + ['@'] + r;
    assert multiset(s) == multiset(l) + multiset(['@']) + multiset(r);
  }

  /** The placeholder of the e-mail box is an address. */
  /** An address given by the position `i` of its '@' and the position `k`
      of the last '.' of its domain, checked one character at a time. */
  lemma AddressAt(t: string, i: nat, k: nat)
    requires 0 < i && i + 1 < k < |t| - 1 && t[i] == '@' && t[k] == '.'
    requires forall j :: 0 <= j < |t| && j != i ==> IsAddressChar(t[j])
    requires forall j :: k < j < |t| ==> IsWordChar(t[j])
    ensures IsAddress(t)
  {
    var d := t[i + 1..];
    assert forall j :: 0 <= j < |d| ==> d[j] == t[i + 1 + j];
    assert d[k - i - 1] == '.' && AllWordChars(d[k - i..]);
  }

  lemma EmailAcceptsPlaceholder()
    ensures IsValidEmail("usuario@ejemplo.com")
  {
    var s := "usuario@ejemplo.com";
    AddressAt(s, 7, 15);
    EmailCharacterization(s);
  }

  /** One trailing line feed is tolerated. */
  lemma EmailAcceptsLineFeed()
    ensures IsValidEmail("a@b.c\n")
  {
  }

  /** A domain without a '.' is not an address, and neither is a second '@'. */
  lemma EmailRejectsExamples()
    ensures !IsValidEmail("a@b")
    ensures !IsValidEmail("a@b@c.d")
  {
  }

  /** The empty string is not an address. */
  lemma EmailRejectsEmpty()
    ensures !IsValidEmail("")
  {
  }

  // ---------------------------------------------------------------------
  // Phone: ^\+?[1-9]\d{1,14}$
  // ---------------------------------------------------------------------

  /** The digits after an optional leading '+'. */
  function Unsigned(t: string): (digits: string) {
    if 0 < |t| && t[0] == '+' then t[1..] else t
  }

  /** Plain words: 2 to 15 digits, the first of them not '0'. */
  ghost predicate IsPhoneDigits(ds: string) {
    2 <= |ds| <= 15 && ds[0] != '0' && AllDigits(ds)
  }

  /** What the anchored pattern accepts under `re.match`: an optional '+',
      2 to 15 digits not starting with '0', and at most one trailing line feed. */
  ghost predicate PhoneSpec(s: string) {
    IsPhoneDigits(Unsigned(s)) ||
    (0 < |s| && s[|s| - 1] == '\n' && IsPhoneDigits(Unsigned(s[..|s| - 1])))
  }

  datatype PhoneState =
    | PhoneStart
    | AfterPlus
    | Digits(n: nat)   // n digits read, 1 <= n <= 15
    | PhoneNewline
    | PhoneReject

  function PhoneStep(q: PhoneState, c: char): (next: PhoneState) {
    match q
    case PhoneStart => if c == '+' then AfterPlus else if '1' <= c <= '9' then Digits(1) else PhoneReject
    case AfterPlus => if '1' <= c <= '9' then Digits(1) else PhoneReject
    case Digits(n) =>
      if IsDigit(c) && n < 15 then Digits(n + 1)
      else if c == '\n' && 2 <= n then PhoneNewline
      else PhoneReject
    case PhoneNewline => PhoneReject
    case PhoneReject => PhoneReject
  }

  function PhoneRun(q: PhoneState, s: string): (last: PhoneState)
    decreases |s|
  {
    if s == [] then q else PhoneRun(PhoneStep(q, s[0]), s[1..])
  }

  predicate PhoneAccepts(q: PhoneState) {
    q == PhoneNewline || (q.Digits? && 2 <= q.n)
  }

  /** `validar_telefono`. */
  function IsValidPhone(s: string): (valid: bool) {
    PhoneAccepts(PhoneRun(PhoneStart, s))
  }

  /** The state after reading `d` with `n` digits already read, in plain words. */
  ghost function DigitsState(n: nat, d: string): PhoneState {
    if AllDigits(d) && n + |d| <= 15 then Digits(n + |d|)
    else if 0 < |d| && d[|d| - 1] == '\n' && AllDigits(d[..|d| - 1]) && 2 <= n + |d| - 1 <= 15 then PhoneNewline
    else PhoneReject
  }

  lemma AllDigitsCons(c: char, s: string)
    ensures AllDigits([c] + s) <==> IsDigit(c) && AllDigits(s)
  {
    var d := [c] + s;
    assert d[0] == c;
    assert forall i :: 0 <= i < |s| ==> d[i + 1] == s[i];
    if IsDigit(c) && AllDigits(s) {
      forall i | 0 <= i < |d| ensures IsDigit(d[i]) {
        if 0 < i { assert d[i] == s[i - 1]; }
      }
    }
  }

  lemma {:induction false} DigitsRun(n: nat, d: string)
    requires 1 <= n <= 15
    ensures PhoneRun(Digits(n), d) == DigitsState(n, d)
    decreases |d|
  {
    if d != [] {
      var c, rest := d[0], d[1..];
      assert d == [c] + rest;
      AllDigitsCons(c, rest);
      if 0 < |rest| {
        assert d[..|d| - 1] == [c] + rest[..|rest| - 1];
        AllDigitsCons(c, rest[..|rest| - 1]);
      } else {
        assert d[..|d| - 1] == [];
      }
      PhoneRejectStays(rest);
      if IsDigit(c) && n < 15 {
        DigitsRun(n + 1, rest);
      } else if c == '\n' && 2 <= n {
        if rest != [] {
          PhoneRejectStays(rest[1..]);
        }
      }
    }
  }

  lemma {:induction false} PhoneRejectStays(s: string)
    ensures PhoneRun(PhoneReject, s) == PhoneReject
    decreases |s|
  {
    if s != [] {
      PhoneRejectStays(s[1..]);
    }
  }

  /** Digits whose first is 1-9: the automaton's verdict in plain words. */
  lemma DigitsAccept(ds: string)
    requires 0 < |ds| && '1' <= ds[0] <= '9'
    ensures PhoneAccepts(DigitsState(1, ds[1..])) <==>
      IsPhoneDigits(ds) || (ds[|ds| - 1] == '\n' && IsPhoneDigits(ds[..|ds| - 1]))
  {
    var rest := ds[1..];
    assert AllDigits(ds) <==> AllDigits(rest) by {
      if AllDigits(rest) {
        forall i | 0 <= i < |ds| ensures IsDigit(ds[i]) {
          if 0 < i { assert ds[i] == rest[i - 1]; }
        }
      }
    }
    if 0 < |rest| {
      var u := ds[..|ds| - 1];
      assert rest[..|rest| - 1] == u[1..];
      assert u[0] == ds[0];
      assert AllDigits(u) <==> AllDigits(u[1..]) by {
        if AllDigits(u[1..]) {
          forall i | 0 <= i < |u| ensures IsDigit(u[i]) {
            if 0 < i { assert u[i] == u[1..][i - 1]; }
          }
        }
      }
    }
  }

  /** The recognizer accepts exactly the strings the pattern describes. */
  lemma PhoneCharacterization(s: string)
    ensures IsValidPhone(s) <==> PhoneSpec(s)
  {
    var u := Unsigned(s);
    // The run first consumes the optional '+', then the leading digit.
    if 0 < |s| && s[0] == '+' {
      assert PhoneRun(PhoneStart, s) == PhoneRun(AfterPlus, u);
    } else {
      assert s == u;
    }
    var q := if 0 < |s| && s[0] == '+' then AfterPlus else PhoneStart;
    assert PhoneRun(PhoneStart, s) == PhoneRun(q, u);
    // Unsigned commutes with dropping a final line feed.
    if 0 < |s| && s[|s| - 1] == '\n' {
      assert 0 < |u| && u[|u| - 1] == '\n';
      assert Unsigned(s[..|s| - 1]) == u[..|u| - 1];
    }
    if u == [] {
    } else if '1' <= u[0] <= '9' {
      assert PhoneRun(q, u) == PhoneRun(Digits(1), u[1..]);
      DigitsRun(1, u[1..]);
      DigitsAccept(u);
    } else {
      assert PhoneRun(q, u) == PhoneRun(PhoneReject, u[1..]);
      PhoneRejectStays(u[1..]);
      if 1 < |u| { assert u[..|u| - 1][0] == u[0]; }
    }
  }

  /** Two to fifteen digits without a leading '0' are accepted. */
  lemma DigitsAccepted(s: string)
    requires 2 <= |s| <= 15 && '1' <= s[0] <= '9' && AllDigits(s)
    ensures IsValidPhone(s)
  {
    PhoneCharacterization(s);
  }

  /** The example number shown to the user is accepted. */
  lemma PhoneAcceptsPlaceholder()
    ensures IsValidPhone("9214447277")
  {
    DigitsAccepted("9214447277");
  }

  /** A leading zero is rejected, with or without '+'. */
  lemma PhoneRejectsLeadingZero()
    ensures !IsValidPhone("0214447277")
    ensures !IsValidPhone("+0214447277")
  {
    PhoneCharacterization("0214447277");
    PhoneCharacterization("+0214447277");
  }

  /** A single digit and sixteen digits are rejected. */
  lemma PhoneRejectsLength()
    ensures !IsValidPhone("9")
    ensures !IsValidPhone("1234567890123456")
  {
    PhoneCharacterization("9");
    PhoneCharacterization("1234567890123456");
  }

}
