/**
 The one normaliser of a ConfioPagos buyer (`src/provider/confio/confio-buyer.ts`): what is built
 from a profile, and the check of the same shape at the edge of the network.
 */
module Buyers {
  import opened Basics
  import opened Text

  datatype Field = Email | FirstName | PhoneNumber

  datatype Result<T> = Ok(value: T) | Rejected(field: Field)

  /** What the profile carries; an absent value is "". */
  datatype Source = Source(email: string, name: string, phone: string, callingCode: string)

  datatype Buyer = Buyer(email: string, firstName: string, lastName: string, phoneNumber: string)

  const NAME_MIN: int := 3
  const NAME_MAX: int := 64

  // ---------------------------------------------------------------- strings

  /** `s.split(c)`. */
  function Split(s: string, c: char): (parts: seq<string>)
    ensures |parts| >= 1 && c !in parts[0]
    ensures c !in s ==> parts == [s]
    ensures c in s ==> |parts| >= 2
  {
    if c !in s then [s]
    else if s[0] == c then [[]] + Split(s[1..], c)
    else
      var rest := Split(s[1..], c);
      [[s[0]] + rest[0]] + rest[1..]
  }

  /** `parts.join(c)`. */
  function Join(parts: seq<string>, c: char): string {
    if parts == [] then []
    else if |parts| == 1 then parts[0]
    else parts[0] + [c] + Join(parts[1..], c)
  }

  /** What is left when every character of `drop` is removed. */
  function Without(s: string, drop: char -> bool): string {
    if s == [] then []
    else
      var rest, last := Without(s[..|s| - 1], drop), s[|s| - 1];
      if drop(last) then rest else rest + [last]
  }

  /** Every run of characters of `run` becomes one space. */
  function RunsToSpace(s: string, run: char -> bool): string {
    if s == [] then []
    else
      var rest, last := RunsToSpace(s[..|s| - 1], run), s[|s| - 1];
      if !run(last) then rest + [last]
      else if |s| > 1 && run(s[|s| - 2]) then rest
      else rest + [' ']
  }

  /** `replace(/^0+/, '')`. */
  function WithoutLeadingZeros(s: string): (t: string)
    ensures t == [] || t[0] != '0'
    ensures s == [] || s[0] != '0' ==> t == s
  {
    if s != [] && s[0] == '0' then WithoutLeadingZeros(s[1..]) else s
  }

  predicate AllDigits(s: string) { forall i :: 0 <= i < |s| ==> IsDigit(s[i]) }

  // ---------------------------------------------------------------- email and name

  function AssertEmail(raw: string): (r: Result<string>)
    ensures r.Ok? ==> r.value == Trim(raw) && '@' in r.value
  {
    var email := Trim(raw);
    if '@' in email then Ok(email) else Rejected(Email)
  }

  /** First word and the rest; a single word is repeated. */
  function SplitName(raw: string): (string, string) {
    var name := RunsToSpace(Trim(raw), IsSpace);
    if name == [] then ([], [])
    else
      var parts := Split(name, ' ');
      if |parts| == 1 then (parts[0], parts[0]) else (parts[0], Join(parts[1..], ' '))
  }

  predicate IsNamePart(s: string) { NAME_MIN <= |s| <= NAME_MAX }

  predicate IsSeparatorOfLocal(c: char) { c == '.' || c == '_' || c == '-' }

  function EmailLocalPart(email: string): string {
    RunsToSpace(Split(Split(email, '@')[0], '+')[0], IsSeparatorOfLocal)
  }

  function ResolveNameParts(first: string, last: string, email: string): (r: Result<(string, string)>)
    ensures r.Ok? ==> IsNamePart(r.value.0) && IsNamePart(r.value.1)
    ensures IsNamePart(first) && IsNamePart(last) ==> r == Ok((first, last))
  {
    if IsNamePart(first) then Ok((first, if IsNamePart(last) then last else first))
    else
      var derived := SplitName(EmailLocalPart(email));
      if !IsNamePart(derived.0) then Rejected(FirstName)
      else Ok((derived.0, if IsNamePart(derived.1) then derived.1 else derived.0))
  }

  // ---------------------------------------------------------------- phone

  /** `+`, a country that does not start with 0, and 8 to 15 digits in all. */
  predicate IsE164(s: string) {
    9 <= |s| <= 16 && s[0] == '+' && s[1] != '0' && AllDigits(s[1..])
  }

  predicate IsCallingCode(s: string) { 1 <= |s| <= 4 && s[0] != '0' && AllDigits(s) }

  predicate IsPhoneSeparator(c: char) { IsSpace(c) || c == '(' || c == ')' || c == '.' || c == '-' }

  predicate IsCodeNoise(c: char) { c == '+' || IsSpace(c) || c == '-' }

  predicate NotDigit(c: char) { !IsDigit(c) }

  predicate AlreadyPrefixed(digits: string, code: string) { code <= digits && |digits| - |code| >= 7 }

  function Composed(digits: string, code: string): string {
    if AlreadyPrefixed(digits, code) then "+" + digits else "+" + code + digits
  }

  function ToE164(rawPhone: string, rawCode: string): (r: Result<string>)
    ensures r.Ok? ==> IsE164(r.value)
    ensures r.Rejected? ==> r.field == PhoneNumber
  {
    var phone := Without(Trim(rawPhone), IsPhoneSeparator);
    if IsE164(phone) then Ok(phone)
    else
      var code := Without(rawCode, IsCodeNoise);
      if !IsCallingCode(code) then Rejected(PhoneNumber)
      else
        var composed := Composed(WithoutLeadingZeros(Without(phone, NotDigit)), code);
        if IsE164(composed) then Ok(composed) else Rejected(PhoneNumber)
  }

  // ---------------------------------------------------------------- the two entries

  function BuildConfioBuyer(source: Source): Result<Buyer> {
    match AssertEmail(source.email)
    case Rejected(f) => Rejected(f)
    case Ok(email) =>
      var parts := SplitName(source.name);
      match ResolveNameParts(parts.0, parts.1, email)
      case Rejected(f) => Rejected(f)
      case Ok(name) =>
        match ToE164(source.phone, source.callingCode)
        case Rejected(f) => Rejected(f)
        case Ok(phone) => Ok(Buyer(email, name.0, name.1, phone))
  }

  /** At the edge there is no country to add to a local number. */
  function AssertConfioBuyer(buyer: Buyer): Result<Buyer> {
    match AssertEmail(buyer.email)
    case Rejected(f) => Rejected(f)
    case Ok(email) =>
      match ResolveNameParts(Trim(buyer.firstName), Trim(buyer.lastName), email)
      case Rejected(f) => Rejected(f)
      case Ok(name) =>
        match ToE164(buyer.phoneNumber, "")
        case Rejected(f) => Rejected(f)
        case Ok(phone) => Ok(Buyer(email, name.0, name.1, phone))
  }
}

/** What the normaliser promises of its outputs, whatever the profile held. */
module BuyerTheorems {
  import opened Basics
  import opened Text
  import opened Buyers

  // ---------------------------------------------------------------- names

  lemma JoinOfLongerFirst(x: char, parts: seq<string>, c: char)
    requires parts != []
    ensures Join([[x] + parts[0]] + parts[1..], c) == [x] + Join(parts, c)
  {
    var longer := [[x] + parts[0]] + parts[1..];
    assert longer[1..] == parts[1..];
    if |parts| > 1 {
      assert [x] + parts[0] + [c] + Join(parts[1..], c) == [x] + (parts[0] + [c] + Join(parts[1..], c));
    }
  }

  lemma JoinOfEmptyFirst(parts: seq<string>, c: char)
    requires parts != []
    ensures Join([[]] + parts, c) == [c] + Join(parts, c)
  {
    assert ([[]] + parts)[1..] == parts;
  }

  lemma {:induction false} JoinUndoesSplit(s: string, c: char)
    ensures Join(Split(s, c), c) == s
  {
    if c in s {
      JoinUndoesSplit(s[1..], c);
      assert s == [s[0]] + s[1..];
      if s[0] == c {
        JoinOfEmptyFirst(Split(s[1..], c), c);
      } else {
        JoinOfLongerFirst(s[0], Split(s[1..], c), c);
      }
    }
  }

  /** A word or words with nothing at either end to trim. */
  predicate Tidy(s: string) { s == [] || (!IsSpace(s[0]) && !IsSpace(s[|s| - 1])) }

  /** Words separated by single spaces. */
  predicate Spaced(s: string) {
    && (forall i :: 0 <= i < |s| && IsSpace(s[i]) ==> s[i] == ' ')
    && (forall i :: 0 < i < |s| && s[i - 1] == ' ' ==> s[i] != ' ')
  }

  /** Collapsing white space leaves single spaces, and the ends as they were. */
  lemma {:induction false} CollapsedIsSpaced(s: string)
    ensures Spaced(RunsToSpace(s, IsSpace))
    ensures s != [] <==> RunsToSpace(s, IsSpace) != []
    ensures s != [] && !IsSpace(s[0]) ==> RunsToSpace(s, IsSpace)[0] == s[0]
    ensures s != [] ==> (IsSpace(s[|s| - 1]) <==> RunsToSpace(s, IsSpace)[|RunsToSpace(s, IsSpace)| - 1] == ' ')
  {
    if s != [] {
      CollapsedIsSpaced(s[..|s| - 1]);
      if |s| > 1 { assert s[..|s| - 1][|s| - 2] == s[|s| - 2]; }
    }
  }

  lemma {:induction false} SplitOnce(s: string, c: char)
    requires c in s
    ensures var first := Split(s, c)[0];
            |first| < |s| && first == s[..|first|] && s[|first|] == c && Split(s, c)[1..] == Split(s[|first| + 1..], c)
  {
    if s[0] == c {
      assert ([[]] + Split(s[1..], c))[1..] == Split(s[1..], c);
    } else {
      SplitOnce(s[1..], c);
      var rest := Split(s[1..], c);
      assert s[1..][|rest[0]| + 1..] == s[|rest[0]| + 2..];
    }
  }

  /** Cut at its first space, a name of single-spaced words leaves two tidy parts. */
  lemma HalvesAreTidy(name: string)
    requires Spaced(name) && ' ' in name && name[0] != ' ' && name[|name| - 1] != ' '
    ensures var parts := Split(name, ' '); Tidy(parts[0]) && Tidy(Join(parts[1..], ' '))
  {
    hide IsSpace, Split, Join;
    SplitOnce(name, ' ');
    var parts := Split(name, ' ');
    var n := |parts[0]|;
    JoinUndoesSplit(name[n + 1..], ' ');
    assert Tidy(name[..n]);
    assert Tidy(name[n + 1..]) by { assert name[n] == ' '; }
  }

  /** Neither part of a name has anything at its ends to trim. */
  lemma NamePartsAreTidy(raw: string)
    ensures Tidy(SplitName(raw).0) && Tidy(SplitName(raw).1)
  {
    assert IsSpace(' ');
    hide IsSpace, RunsToSpace, Split, Join;
    var trimmed := Trim(raw);
    var name := RunsToSpace(trimmed, IsSpace);
    CollapsedIsSpaced(trimmed);
    if name != [] && ' ' in name {
      HalvesAreTidy(name);
    }
  }

  predicate Blank(s: string) { forall i :: 0 <= i < |s| ==> IsSpace(s[i]) }

  /** A word without white space. */
  predicate Word(s: string) { s != [] && forall i :: 0 <= i < |s| ==> !IsSpace(s[i]) }

  lemma {:induction false} BlankStartGoes(pad: string, s: string)
    requires Blank(pad) && s != [] && !IsSpace(s[0])
    ensures TrimStart(pad + s) == s
  {
    if pad == [] {
      assert pad + s == s;
    } else {
      assert (pad + s)[1..] == pad[1..] + s;
      BlankStartGoes(pad[1..], s);
    }
  }

  lemma {:induction false} BlankEndGoes(s: string, pad: string)
    requires Blank(pad) && s != [] && !IsSpace(s[|s| - 1])
    ensures TrimEnd(s + pad) == s
  {
    if pad == [] {
      assert s + pad == s;
    } else {
      assert (s + pad)[..|s + pad| - 1] == s + pad[..|pad| - 1];
      BlankEndGoes(s, pad[..|pad| - 1]);
    }
  }

  /** Trimming takes exactly the white space at both ends. */
  lemma TrimTakesPadding(before: string, s: string, after: string)
    requires Blank(before) && Blank(after) && s != [] && Tidy(s)
    ensures Trim(before + s + after) == s
  {
    assert before + s + after == before + (s + after);
    BlankStartGoes(before, s + after);
    BlankEndGoes(s, after);
  }

  /** Runs of these characters are single spaces already. */
  predicate SpacedBy(s: string, run: char -> bool) {
    && (forall i :: 0 <= i < |s| && run(s[i]) ==> s[i] == ' ')
    && (forall i :: 0 < i < |s| && run(s[i - 1]) ==> !run(s[i]))
  }

  predicate NoneOf(s: string, run: char -> bool) { forall i :: 0 <= i < |s| ==> !run(s[i]) }

  predicate AllOf(s: string, run: char -> bool) { forall i :: 0 <= i < |s| ==> run(s[i]) }

  lemma {:induction false} WordsStay(s: string, run: char -> bool)
    requires SpacedBy(s, run)
    ensures RunsToSpace(s, run) == s
  {
    if s != [] {
      var rest := s[..|s| - 1];
      WordsStay(rest, run);
      assert s == rest + [s[|s| - 1]];
    }
  }

  lemma {:induction false} GapBecomesSpace(first: string, gap: string, run: char -> bool)
    requires first != [] && NoneOf(first, run) && AllOf(gap, run) && gap != []
    ensures RunsToSpace(first + gap, run) == first + " "
  {
    var all, rest := first + gap, gap[..|gap| - 1];
    assert all[..|all| - 1] == first + rest;
    if rest == [] {
      assert first + rest == first;
      WordsStay(first, run);
      assert all[|all| - 2] == first[|first| - 1];
    } else {
      GapBecomesSpace(first, rest, run);
      assert all[|all| - 2] == rest[|rest| - 1];
    }
  }

  lemma {:induction false} WordsAfterGap(head: string, gap: string, words: string, run: char -> bool)
    requires head != [] && NoneOf(head, run) && AllOf(gap, run) && gap != []
    requires words != [] && !run(words[0]) && SpacedBy(words, run)
    ensures RunsToSpace(head + gap + words, run) == head + " " + words
  {
    var all, rest := head + gap + words, words[..|words| - 1];
    assert all[..|all| - 1] == head + gap + rest;
    assert words == rest + [words[|words| - 1]];
    if rest == [] {
      assert head + gap + rest == head + gap;
      GapBecomesSpace(head, gap, run);
    } else {
      WordsAfterGap(head, gap, rest, run);
      assert all[|all| - 2] == words[|words| - 2];
      assert head + " " + words == head + " " + rest + [words[|words| - 1]];
    }
  }

  /** A word cut off before a space is the first part, and the rest is the rest. */
  lemma SplitAfterWord(first: string, rest: string)
    requires Word(first)
    ensures var parts := Split(first + " " + rest, ' ');
            |parts| > 1 && parts[0] == first && Join(parts[1..], ' ') == rest
  {
    var name := first + " " + rest;
    assert name[|first|] == ' ' && IsSpace(' ');
    hide Join;
    SplitOnce(name, ' ');
    hide Split, IsSpace;
    var end := |Split(name, ' ')[0]|;
    assert forall i :: 0 <= i < end ==> name[i] == Split(name, ' ')[0][i];
    assert forall i :: 0 <= i < |first| ==> name[i] == first[i];
    FirstSpace(name, |first|, end);
    assert name[..|first|] == first && name[|first| + 1..] == rest;
    JoinUndoesSplit(rest, ' ');
  }

  lemma FirstSpace(name: string, a: nat, b: nat)
    requires a < |name| && name[a] == ' ' && forall i :: 0 <= i < a ==> name[i] != ' '
    requires b < |name| && name[b] == ' ' && forall i :: 0 <= i < b ==> name[i] != ' '
    ensures a == b
  {
  }

  /**
   The first word is the first name and the others are the last name, whatever the white space
   around and after the first word; a name of one word is both.
   */
  lemma FirstWordIsFirstName(before: string, first: string, gap: string, rest: string, after: string)
    requires Blank(before) && Blank(after) && Blank(gap) && gap != []
    requires Word(first) && rest != [] && Tidy(rest) && Spaced(rest)
    ensures SplitName(before + first + gap + rest + after) == (first, rest)
  {
    var inner := first + gap + rest;
    assert before + first + gap + rest + after == before + inner + after;
    assert inner[0] == first[0] && inner[|inner| - 1] == rest[|rest| - 1];
    TrimTakesPadding(before, inner, after);
    WordsAfterGap(first, gap, rest, IsSpace);
    SplitAfterWord(first, rest);
    hide Split, Join, RunsToSpace, IsSpace, Trim;
  }

  lemma OneWordIsBothNames(before: string, word: string, after: string)
    requires Blank(before) && Blank(after) && Word(word)
    ensures SplitName(before + word + after) == (word, word)
  {
    TrimTakesPadding(before, word, after);
    WordsStay(word, IsSpace);
    assert IsSpace(' ') && ' ' !in word;
  }

  /** What may separate the words of an email. */
  predicate Dotted(s: string) { s != [] && forall i :: 0 <= i < |s| ==> s[i] == '.' || s[i] == '_' || s[i] == '-' }

  /** A word of an email: nothing in it splits or separates. */
  predicate EmailWord(s: string) {
    Word(s) && forall i :: 0 <= i < |s| ==> s[i] != '@' && s[i] != '+' && s[i] != '.' && s[i] != '_' && s[i] != '-'
  }

  lemma {:induction false} FirstPartIs(s: string, c: char, rest: string)
    requires c !in s
    ensures Split(s + [c] + rest, c)[0] == s
  {
    if s == [] {
      assert s + [c] + rest == [c] + rest;
    } else {
      var whole := s + [c] + rest;
      assert whole[0] == s[0] && whole[1..] == s[1..] + [c] + rest;
      assert c in whole;
      FirstPartIs(s[1..], c, rest);
      assert s == [s[0]] + s[1..];
    }
  }

  /** Cut at the `@`, without a sub-address. */
  lemma LocalPartIs(local: string, tag: string, domain: string)
    requires '@' !in local && '+' !in local && '@' !in tag
    ensures EmailLocalPart(local + "@" + domain) == RunsToSpace(local, IsSeparatorOfLocal)
    ensures EmailLocalPart(local + "+" + tag + "@" + domain) == RunsToSpace(local, IsSeparatorOfLocal)
  {
    hide Split, RunsToSpace;
    FirstPartIs(local, '@', domain);
    FirstPartIs(local + "+" + tag, '@', domain);
    FirstPartIs(local, '+', tag);
    assert '+' !in local ==> Split(local, '+')[0] == local by { WholeIsOnePart(local); }
  }

  lemma WholeIsOnePart(s: string)
    ensures '+' !in s ==> Split(s, '+')[0] == s
  {
  }

  /** The two words of an email, however they are separated, are the names it gives; one word is both. */
  lemma EmailGivesNames(first: string, gap: string, rest: string, tag: string, domain: string)
    requires EmailWord(first) && EmailWord(rest) && Dotted(gap) && '@' !in tag
    ensures var local := first + gap + rest;
            && SplitName(EmailLocalPart(local + "@" + domain)) == (first, rest)
            && SplitName(EmailLocalPart(local + "+" + tag + "@" + domain)) == (first, rest)
    ensures SplitName(EmailLocalPart(first + "@" + domain)) == (first, first)
  {
    hide SplitName, EmailLocalPart, RunsToSpace;
    var local := first + gap + rest;
    forall i | 0 <= i < |local| ensures local[i] != '@' && local[i] != '+' {}
    LocalPartIs(local, tag, domain);
    LocalPartIs(first, tag, domain);
    WordsAfterGap(first, gap, rest, IsSeparatorOfLocal);
    WordsStay(first, IsSeparatorOfLocal);
    FirstWordIsFirstName("", first, " ", rest, "");
    OneWordIsBothNames("", first, "");
    assert "" + first + " " + rest + "" == first + " " + rest;
    assert "" + first + "" == first;
  }

  /** Both names usable, a buyer has exactly them; the email trimmed, and the phone in E.164. */
  lemma BuyerHasItsNames(source: Source, before: string, first: string, gap: string, rest: string, after: string)
    requires Blank(before) && Blank(after) && Blank(gap) && gap != []
    requires Word(first) && rest != [] && Tidy(rest) && Spaced(rest) && 3 <= |first| <= 64
    requires source.name == before + first + gap + rest + after
    ensures var built := BuildConfioBuyer(source);
            && (built.Ok? <==> '@' in Trim(source.email) && ToE164(source.phone, source.callingCode).Ok?)
            && (built.Ok? ==>
                  built.value == Buyer(Trim(source.email), first, if 3 <= |rest| <= 64 then rest else first,
                                       ToE164(source.phone, source.callingCode).value))
            && (built.Rejected? ==> built.field == if '@' !in Trim(source.email) then Email else PhoneNumber)
  {
    hide SplitName, Trim, ToE164;
    FirstWordIsFirstName(before, first, gap, rest, after);
  }

  /** A first name of the wrong length gives way, with the last one, to the names of the email. */
  lemma UnusableNameGivesWay(source: Source)
    requires '@' in Trim(source.email) && !(3 <= |SplitName(source.name).0| <= 64)
    ensures var names := SplitName(EmailLocalPart(Trim(source.email)));
            var built := BuildConfioBuyer(source);
            if !(3 <= |names.0| <= 64) then built == Rejected(FirstName)
            else match ToE164(source.phone, source.callingCode)
                 case Rejected(_) => built == Rejected(PhoneNumber)
                 case Ok(phone) =>
                   built == Ok(Buyer(Trim(source.email), names.0, if 3 <= |names.1| <= 64 then names.1 else names.0, phone))
  {
    hide SplitName, Trim, ToE164, EmailLocalPart;
  }

  /** Name parts settle to 3 to 64 characters with nothing to trim. */
  lemma ResolvedNamesAreTidy(first: string, last: string, email: string)
    requires Tidy(first) && Tidy(last) && ResolveNameParts(first, last, email).Ok?
    ensures var name := ResolveNameParts(first, last, email).value;
            Tidy(name.0) && Tidy(name.1) && IsNamePart(name.0) && IsNamePart(name.1)
  {
    NamePartsAreTidy(EmailLocalPart(email));
  }

  // ---------------------------------------------------------------- phones

  lemma {:induction false} NothingToDrop(s: string, drop: char -> bool)
    requires forall i :: 0 <= i < |s| ==> !drop(s[i])
    ensures Without(s, drop) == s
  {
    if s != [] {
      NothingToDrop(s[..|s| - 1], drop);
      assert s == s[..|s| - 1] + [s[|s| - 1]];
    }
  }

  lemma {:induction false} EverythingToDrop(s: string, drop: char -> bool)
    requires forall i :: 0 <= i < |s| ==> drop(s[i])
    ensures Without(s, drop) == []
  {
    if s != [] { EverythingToDrop(s[..|s| - 1], drop); }
  }

  lemma {:induction false} WithoutAppends(a: string, b: string, drop: char -> bool)
    ensures Without(a + b, drop) == Without(a, drop) + Without(b, drop)
  {
    if b == [] {
      assert a + b == a;
    } else {
      WithoutAppends(a, b[..|b| - 1], drop);
      assert (a + b)[..|a + b| - 1] == a + b[..|b| - 1];
    }
  }

  lemma TrimStartIsDropped(s: string)
    ensures Without(TrimStart(s), IsPhoneSeparator) == Without(s, IsPhoneSeparator)
  {
    hide Without, TrimStart, IsSpace;
    var t := TrimStart(s);
    var gone := s[..|s| - |t|];
    assert s == gone + t;
    WithoutAppends(gone, t, IsPhoneSeparator);
    EverythingToDrop(gone, IsPhoneSeparator);
  }

  lemma TrimEndIsDropped(s: string)
    ensures Without(TrimEnd(s), IsPhoneSeparator) == Without(s, IsPhoneSeparator)
  {
    hide Without, TrimEnd, IsSpace;
    var t := TrimEnd(s);
    var gone := s[|t|..];
    assert s == t + gone;
    WithoutAppends(t, gone, IsPhoneSeparator);
    EverythingToDrop(gone, IsPhoneSeparator);
  }

  /** Trimming first changes nothing: what it takes off would be dropped anyway. */
  lemma TrimIsDropped(s: string)
    ensures Without(Trim(s), IsPhoneSeparator) == Without(s, IsPhoneSeparator)
  {
    hide Without, TrimStart, TrimEnd;
    TrimStartIsDropped(s);
    TrimEndIsDropped(TrimStart(s));
  }

  lemma SeparatorIsDropped(before: string, c: char, after: string)
    requires IsPhoneSeparator(c)
    ensures Without(before + [c] + after, IsPhoneSeparator) == Without(before + after, IsPhoneSeparator)
  {
    EverythingToDrop([c], IsPhoneSeparator);
    hide Without, IsPhoneSeparator;
    WithoutAppends(before + [c], after, IsPhoneSeparator);
    WithoutAppends(before, [c], IsPhoneSeparator);
    WithoutAppends(before, after, IsPhoneSeparator);
  }

  lemma OnlyStrippedMatters(a: string, b: string, code: string)
    requires Without(Trim(a), IsPhoneSeparator) == Without(Trim(b), IsPhoneSeparator)
    ensures ToE164(a, code) == ToE164(b, code)
  {
    hide Without, Trim, IsE164, IsCallingCode, Composed, WithoutLeadingZeros;
  }

  /** Spaces, dots, dashes and parentheses anywhere in the number do not matter. */
  lemma SeparatorsDoNotMatter(before: string, c: char, after: string, code: string)
    requires IsPhoneSeparator(c)
    ensures ToE164(before + [c] + after, code) == ToE164(before + after, code)
  {
    hide ToE164, Without, Trim, IsPhoneSeparator;
    TrimIsDropped(before + [c] + after);
    TrimIsDropped(before + after);
    SeparatorIsDropped(before, c, after);
    OnlyStrippedMatters(before + [c] + after, before + after, code);
  }

  lemma NoSeparator(c: char)
    requires IsDigit(c) || c == '+'
    ensures !IsPhoneSeparator(c)
  {
  }

  lemma E164IsClean(s: string)
    requires IsE164(s)
    ensures Without(Trim(s), IsPhoneSeparator) == s
  {
    hide Without, Trim, IsPhoneSeparator;
    forall i | 0 <= i < |s| ensures !IsPhoneSeparator(s[i]) {
      if i > 0 { assert s[1..][i - 1] == s[i]; }
      NoSeparator(s[i]);
    }
    TrimIsDropped(s);
    NothingToDrop(s, IsPhoneSeparator);
  }

  /** White space and line terminators, one by one, as sections 12.2 and 12.3 of ECMA-262 list them. */
  lemma SpacesAre(c: char)
    ensures IsSpace(c) <==> c as int in {9, 10, 11, 12, 13, 32, 160, 5760, 8192, 8193, 8194, 8195, 8196, 8197, 8198, 8199,
                                         8200, 8201, 8202, 8232, 8233, 8239, 8287, 12288, 65279}
  {
  }

  predicate Digits(s: string) { forall i :: 0 <= i < |s| ==> '0' <= s[i] <= '9' }

  /** A plus, a digit that is not 0, and 7 to 14 digits more: every such number is taken as it is. */
  lemma StrictE164IsTaken(s: string, code: string)
    requires 9 <= |s| <= 16 && s[0] == '+' && '1' <= s[1] <= '9' && Digits(s[2..])
    ensures ToE164(s, code) == Ok(s)
  {
    forall i | 0 <= i < |s[1..]| ensures IsDigit(s[1..][i]) {
      if i > 0 { assert s[1..][i] == s[2..][i - 1]; }
    }
    E164IsKept(s, code);
  }

  /** And nothing else ever comes out. */
  lemma OnlyStrictE164ComesOut(phone: string, code: string)
    ensures var r := ToE164(phone, code);
            r.Ok? ==> 9 <= |r.value| <= 16 && r.value[0] == '+' && '1' <= r.value[1] <= '9' && Digits(r.value[2..])
  {
    var r := ToE164(phone, code);
    if r.Ok? {
      hide ToE164;
      assert IsE164(r.value);
      forall i | 0 <= i < |r.value[2..]| ensures '0' <= r.value[2..][i] <= '9' { assert IsDigit(r.value[1..][i + 1]); }
      assert IsDigit(r.value[1..][0]);
    }
  }

  /** One to four digits, the first not 0; without them no local number is given a country. */
  lemma UnusableCodeIsRefused(phone: string, code: string)
    requires var c := Without(code, IsCodeNoise); !(1 <= |c| <= 4 && '1' <= c[0] <= '9' && Digits(c))
    ensures ToE164(phone, code) == Rejected(PhoneNumber) || (exists s :: IsE164(s) && ToE164(phone, code) == Ok(s) && s == Stripped(phone))
  {
    hide Without;
    var c := Without(code, IsCodeNoise);
    if IsCallingCode(c) {
      assert IsDigit(c[0]);
      forall i | 0 <= i < |c| ensures '0' <= c[i] <= '9' { assert IsDigit(c[i]); }
      assert false;
    }
  }

  /** With them, a local number that does not carry its country gets it. */
  lemma UsableCodeIsPrepended(n: string, code: string)
    requires 1 <= |code| <= 4 && '1' <= code[0] <= '9' && Digits(code)
    requires Digits(n) && n != [] && '1' <= n[0] <= '9' && !(code <= n && |n| - |code| >= 7) && |n| >= 7 && |code| + |n| <= 15
    ensures ToE164(n, code) == Ok("+" + (code + n))
  {
    DigitsAreDigits(n, code);
    hide ToE164, IsE164, AllDigits, Digits;
    CountryCodeDoesNotMatter(n, code, "");
  }

  lemma DigitsAreDigits(n: string, code: string)
    requires 1 <= |code| <= 4 && '1' <= code[0] <= '9' && Digits(code)
    requires Digits(n) && |n| >= 7 && |code| + |n| <= 15
    ensures AllDigits(n) && IsCallingCode(code) && IsE164("+" + (code + n)) && AllZeros("")
  {
    var whole := "+" + (code + n);
    forall i | 0 <= i < |whole[1..]| ensures IsDigit(whole[1..][i]) { assert whole[1..][i] == (code + n)[i]; }
    assert whole[1] == code[0];
  }

  lemma E164IsKept(s: string, code: string)
    requires IsE164(s)
    ensures ToE164(s, code) == Ok(s)
  {
    E164IsClean(s);
  }

  /** The digits the number comes down to, without the zeros of a trunk prefix. */
  function DigitsOf(phone: string): string {
    WithoutLeadingZeros(Without(Without(Trim(phone), IsPhoneSeparator), NotDigit))
  }

  lemma {:induction false} ZerosGo(zeros: string, n: string)
    requires forall i :: 0 <= i < |zeros| ==> zeros[i] == '0'
    requires n == [] || n[0] != '0'
    ensures WithoutLeadingZeros(zeros + n) == n
  {
    if zeros == [] {
      assert zeros + n == n;
    } else {
      assert (zeros + n)[1..] == zeros[1..] + n;
      ZerosGo(zeros[1..], n);
    }
  }

  /** The number as the code sees it, before it looks for a country. */
  function Stripped(phone: string): string { Without(Trim(phone), IsPhoneSeparator) }

  predicate AllZeros(s: string) { forall i :: 0 <= i < |s| ==> s[i] == '0' }

  lemma DigitsSurvive(s: string)
    requires AllDigits(s)
    ensures Stripped(s) == s && Without(s, NotDigit) == s
  {
    hide Without, Trim;
    TrimIsDropped(s);
    NothingToDrop(s, IsPhoneSeparator);
    NothingToDrop(s, NotDigit);
  }

  /** Digits alone, even behind a trunk prefix of zeros, are not yet E.164. */
  lemma LocalForm(n: string, zeros: string)
    requires AllDigits(n) && n != [] && n[0] != '0' && AllZeros(zeros)
    ensures DigitsOf(zeros + n) == n && !IsE164(Stripped(zeros + n))
  {
    hide Without, Trim, WithoutLeadingZeros;
    DigitsSurvive(zeros + n);
    ZerosGo(zeros, n);
    assert (zeros + n)[0] != '+';
  }

  lemma PlusForm(digits: string)
    requires AllDigits(digits) && digits != [] && digits[0] != '0'
    ensures Stripped("+" + digits) == "+" + digits && DigitsOf("+" + digits) == digits
  {
    hide Without, Trim;
    var plus := "+" + digits;
    TrimIsDropped(plus);
    NothingToDrop(plus, IsPhoneSeparator);
    WithoutAppends("+", digits, NotDigit);
    EverythingToDrop("+", NotDigit);
    NothingToDrop(digits, NotDigit);
  }

  lemma CodeIsClean(code: string)
    requires IsCallingCode(code)
    ensures Without(code, IsCodeNoise) == code
  {
    NothingToDrop(code, IsCodeNoise);
  }

  /** The composed number, if it is one. */
  function Settled(digits: string, code: string): Result<string> {
    if IsE164(Composed(digits, code)) then Ok(Composed(digits, code)) else Rejected(PhoneNumber)
  }

  /** Whatever is written around them, a number that is not E.164 as it stands comes down to its digits. */
  lemma OnlyDigitsMatter(phone: string, code: string)
    requires !IsE164(Stripped(phone)) && IsCallingCode(code)
    ensures ToE164(phone, code) == Settled(DigitsOf(phone), code)
  {
    hide Without, Trim, WithoutLeadingZeros, IsE164, Composed;
    CodeIsClean(code);
  }

  /** A number in front of which its country stands, with or without a plus. */
  lemma PrefixedForms(n: string, code: string)
    requires AllDigits(n) && |n| >= 7 && IsCallingCode(code)
    ensures ToE164(code + n, code) == Settled(code + n, code) == ToE164("+" + (code + n), code)
    ensures Settled(code + n, code) == if IsE164("+" + (code + n)) then Ok("+" + (code + n)) else Rejected(PhoneNumber)
  {
    hide ToE164, Trim, Without, WithoutLeadingZeros, Stripped, DigitsOf, IsE164;
    var whole := "+" + (code + n);
    assert AlreadyPrefixed(code + n, code);
    LocalForm(code + n, "");
    assert "" + (code + n) == code + n;
    OnlyDigitsMatter(code + n, code);
    PlusForm(code + n);
    if IsE164(whole) { E164IsKept(whole, code); } else { OnlyDigitsMatter(whole, code); }
  }

  lemma SettledLocally(n: string, code: string)
    requires !AlreadyPrefixed(n, code)
    ensures Settled(n, code) == if IsE164("+" + (code + n)) then Ok("+" + (code + n)) else Rejected(PhoneNumber)
  {
    hide IsE164;
    assert "+" + code + n == "+" + (code + n);
  }

  /**
   A national number of seven digits or more comes out the same however its country is written:
   not at all, behind a trunk prefix, in front, or in front with a plus.
   */
  lemma CountryCodeDoesNotMatter(n: string, code: string, zeros: string)
    requires AllDigits(n) && |n| >= 7 && n[0] != '0' && IsCallingCode(code) && !AlreadyPrefixed(n, code)
    requires AllZeros(zeros)
    ensures var whole := "+" + (code + n);
            && ToE164(n, code) == (if IsE164(whole) then Ok(whole) else Rejected(PhoneNumber))
            && ToE164(zeros + n, code) == ToE164(n, code)
            && ToE164(code + n, code) == ToE164(n, code)
            && ToE164(whole, code) == ToE164(n, code)
  {
    hide ToE164, Trim, Without, WithoutLeadingZeros, Stripped, DigitsOf, IsE164, Settled, AlreadyPrefixed;
    LocalForm(n, zeros);
    LocalForm(n, "");
    assert "" + n == n;
    OnlyDigitsMatter(n, code);
    OnlyDigitsMatter(zeros + n, code);
    PrefixedForms(n, code);
    SettledLocally(n, code);
  }

  /** And that guard is exact: a number read as already prefixed loses its country, if it is short enough to be one. */
  lemma CountryCodeMattersIff(n: string, code: string)
    requires AllDigits(n) && |n| >= 7 && n[0] != '0' && IsCallingCode(code)
    ensures ToE164(n, code) == ToE164(code + n, code) <==> !AlreadyPrefixed(n, code) || |n| > 15
  {
    if !AlreadyPrefixed(n, code) {
      CountryCodeDoesNotMatter(n, code, "");
    } else {
      hide ToE164, Trim, Without, WithoutLeadingZeros, Stripped, DigitsOf;
      LocalForm(n, "");
      assert "" + n == n;
      OnlyDigitsMatter(n, code);
      PrefixedForms(n, code);
      PlusLongIs(n);
      assert |"+" + n| < |"+" + (code + n)|;
    }
  }

  lemma PlusLongIs(digits: string)
    requires AllDigits(digits) && |digits| >= 8 && digits[0] != '0'
    ensures IsE164("+" + digits) <==> |digits| <= 15
  {
    assert ("+" + digits)[1..] == digits;
  }

  // ---------------------------------------------------------------- the round trip

  /** Every buyer built is in the form ConfioPagos takes, and the edge hands it on unchanged. */
  lemma EdgeAcceptsWhatWasBuilt(source: Source)
    ensures BuildConfioBuyer(source).Ok? ==>
              var buyer := BuildConfioBuyer(source).value;
              && AssertConfioBuyer(buyer) == Ok(buyer)
              && IsE164(buyer.phoneNumber) && '@' in buyer.email && Tidy(buyer.email)
              && IsNamePart(buyer.firstName) && IsNamePart(buyer.lastName)
  {
    hide SplitName, EmailLocalPart, Trim, Split, ToE164;
    if BuildConfioBuyer(source).Ok? {
      var buyer := BuildConfioBuyer(source).value;
      var parts := SplitName(source.name);
      NamePartsAreTidy(source.name);
      ResolvedNamesAreTidy(parts.0, parts.1, buyer.email);
      E164IsKept(buyer.phoneNumber, "");
    }
  }

  /** The edge is idempotent on whatever it accepts. */
  lemma EdgeIsIdempotent(buyer: Buyer)
    ensures AssertConfioBuyer(buyer).Ok? ==> AssertConfioBuyer(AssertConfioBuyer(buyer).value) == AssertConfioBuyer(buyer)
  {
    hide SplitName, EmailLocalPart, Trim, Split, ToE164;
    if AssertConfioBuyer(buyer).Ok? {
      var once := AssertConfioBuyer(buyer).value;
      ResolvedNamesAreTidy(Trim(buyer.firstName), Trim(buyer.lastName), once.email);
      E164IsKept(once.phoneNumber, "");
    }
  }
}
