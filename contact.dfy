/** The quote-request form of the public site (src/components/ContactSection.tsx).

    Five validators return "" for an acceptable field and a message otherwise (here a
    Verdict, whose Message is that text). The
    phone and e-mail validators test the regular expressions
    `^\(?\d{2}\)?\s?\d{4,5}-?\d{4}$` and `^[^\s@]+@[^\s@]+\.[^\s@]+$`; here each is a
    hand-written recogniser, proved to accept exactly the strings a small grammar of
    the pattern's parts produces. Submission runs every validator, stores every
    result, and composes the message only when all are "". */
module Contact {
  import opened Wrappers
  import opened Strings

  /** What a validator reports: `Valid` stands for the empty message, every other
      value for the message shown under the field (see Message). */
  datatype Verdict =
    | Valid
    | NomeRequired | NomeShort
    | TelefoneRequired | TelefoneFormat
    | EmailRequired | EmailFormat
    | ConvidadosNotNumber | ConvidadosNotPositive
    | AlergiasRequired

  /** The text a validator returns. */
  function Message(v: Verdict): (r: string)
    ensures r == "" <==> v == Valid
  {
    match v
    case Valid => ""
    case NomeRequired => "Por favor, insira seu nome completo."
    case NomeShort => "O nome parece muito curto."
    case TelefoneRequired => "Telefone é obrigatório."
    case TelefoneFormat => "Formato inválido. Ex: (11) 99999-9999"
    case EmailRequired => "E-mail é obrigatório."
    case EmailFormat => "Digite um e-mail válido."
    case ConvidadosNotNumber => "Digite apenas números."
    case ConvidadosNotPositive => "O número de convidados deve ser positivo."
    case AlergiasRequired => "Por favor, informe quais são as alergias."
  }

  // ---------------------------------------------------------------------------
  // Name

  function ValidateNome(value: string): (r: Verdict)
    ensures r == Valid <==> |Trim(value)| >= 3
    ensures Trim(value) == "" ==> r == NomeRequired
    ensures 0 < |Trim(value)| < 3 ==> r == NomeShort
  {
    if Trim(value) == "" then NomeRequired
    else if |Trim(value)| < 3 then NomeShort
    else Valid
  }

  // ---------------------------------------------------------------------------
  // Phone: ^\(?\d{2}\)?\s?\d{4,5}-?\d{4}$

  /** The pieces of a phone number as the pattern lays them out: an optional "(",
      two area digits, an optional ")", an optional white-space character, four or
      five digits, an optional "-", and four digits. */
  datatype PhoneParts = PhoneParts(
    open: bool, area: string, close: bool, space: Option<char>,
    prefix: string, hyphen: bool, line: string)

  predicate WellFormedPhone(p: PhoneParts) {
    && |p.area| == 2 && AllDigits(p.area)
    && (p.space.Some? ==> IsWhitespace(p.space.value))
    && 4 <= |p.prefix| <= 5 && AllDigits(p.prefix)
    && |p.line| == 4 && AllDigits(p.line)
  }

  function Flag(present: bool, c: char): string {
    if present then [c] else ""
  }

  function SpaceText(space: Option<char>): string {
    match space
    case Some(w) => [w]
    case None => ""
  }

  predicate StartsWith(s: string, c: char) {
    |s| > 0 && s[0] == c
  }

  /** `c?`: `s` without its first character when that character is `c`. */
  function SkipOptional(s: string, c: char): (r: string)
    ensures s == Flag(StartsWith(s, c), c) + r
  {
    if StartsWith(s, c) then s[1..] else s
  }

  /** The white-space character `\s?` takes from the front of `s`, if any. */
  function LeadingSpace(s: string): (r: Option<char>)
    ensures r.Some? <==> |s| > 0 && IsWhitespace(s[0])
    ensures r.Some? ==> r.value == s[0]
  {
    if |s| > 0 && IsWhitespace(s[0]) then Some(s[0]) else None
  }

  function SkipSpace(s: string): (r: string)
    ensures s == SpaceText(LeadingSpace(s)) + r
  {
    if LeadingSpace(s).Some? then s[1..] else s
  }

  /** `\d{4,5}-?\d{4}` for the given pieces. */
  function RenderSubscriber(prefix: string, hyphen: bool, line: string): string {
    prefix + (Flag(hyphen, '-') + line)
  }

  /** The string the pattern matches for the given pieces. */
  function RenderPhone(p: PhoneParts): string {
    Flag(p.open, '(') + (p.area + (Flag(p.close, ')') + (SpaceText(p.space) +
      RenderSubscriber(p.prefix, p.hyphen, p.line))))
  }

  /** `\d{4,5}-?\d{4}` recognised on what is left once the area code and the
      optional pieces after it are consumed. */
  function ParseSubscriber(r: string): Option<(string, bool, string)> {
    if (|r| == 8 || |r| == 9) && AllDigits(r) then Some((r[..|r| - 4], false, r[|r| - 4..]))
    else if (|r| == 9 || |r| == 10) && r[|r| - 5] == '-' && AllDigits(r[..|r| - 5]) && AllDigits(r[|r| - 4..])
    then Some((r[..|r| - 5], true, r[|r| - 4..]))
    else None
  }

  /** The phone pattern, recognised left to right. Each optional piece is taken when
      its character is present: that character cannot start what follows it, so the
      choice never has to be undone. */
  function ParsePhone(s: string): Option<PhoneParts> {
    var t := SkipOptional(s, '(');
    if |t| < 2 || !IsDigit(t[0]) || !IsDigit(t[1]) then None
    else
      var v := SkipOptional(t[2..], ')');
      var w := SkipSpace(v);
      match ParseSubscriber(w)
      case None => None
      case Some(sub) =>
        Some(PhoneParts(StartsWith(s, '('), t[..2], StartsWith(t[2..], ')'), LeadingSpace(v), sub.0, sub.1, sub.2))
  }

  predicate MatchPhone(s: string) {
    ParsePhone(s).Some?
  }

  lemma DigitIsNotWhitespace(c: char)
    requires IsDigit(c)
    ensures !IsWhitespace(c)
  {
  }

  lemma SubscriberSound(r: string)
    requires ParseSubscriber(r).Some?
    ensures var sub := ParseSubscriber(r).value;
      && 4 <= |sub.0| <= 5 && AllDigits(sub.0) && |sub.2| == 4 && AllDigits(sub.2)
      && RenderSubscriber(sub.0, sub.1, sub.2) == r
  {
    if !((|r| == 8 || |r| == 9) && AllDigits(r)) {
      assert r == r[..|r| - 5] + ("-" + r[|r| - 4..]);
    }
  }

  lemma SubscriberRoundTrip(prefix: string, hyphen: bool, line: string)
    requires 4 <= |prefix| <= 5 && AllDigits(prefix) && |line| == 4 && AllDigits(line)
    ensures ParseSubscriber(RenderSubscriber(prefix, hyphen, line)) == Some((prefix, hyphen, line))
  {
    var r := RenderSubscriber(prefix, hyphen, line);
    if hyphen {
      assert r[|prefix|] == '-';
      assert r[..|r| - 5] == prefix;
      assert r[|r| - 4..] == line;
    } else {
      assert r == prefix + line;
      assert r[..|r| - 4] == prefix;
      assert r[|r| - 4..] == line;
    }
  }

  /** The subscriber part: what is left once the optional "(", the area code, the
      optional ")" and the optional white space are consumed. */
  function SubscriberText(s: string): string
    requires |SkipOptional(s, '(')| >= 2
  {
    SkipSpace(SkipOptional(SkipOptional(s, '(')[2..], ')'))
  }

  /** The text is its optional "(", two characters, its optional ")", its optional
      white space and the subscriber part, in that order. */
  lemma PhoneSplit(s: string)
    requires |SkipOptional(s, '(')| >= 2
    ensures var t := SkipOptional(s, '(');
            var v := SkipOptional(t[2..], ')');
            s == Flag(StartsWith(s, '('), '(') +
                 (t[..2] + (Flag(StartsWith(t[2..], ')'), ')') + (SpaceText(LeadingSpace(v)) + SubscriberText(s))))
  {
    var t := SkipOptional(s, '(');
    var u := t[2..];
    var v := SkipOptional(u, ')');
    assert t == t[..2] + u;
    assert u == Flag(StartsWith(u, ')'), ')') + (SpaceText(LeadingSpace(v)) + SkipSpace(v));
  }

  lemma PhoneSoundPieces(s: string)
    requires MatchPhone(s)
    ensures var p := ParsePhone(s).value;
      && |p.area| == 2 && AllDigits(p.area)
      && (p.space.Some? ==> IsWhitespace(p.space.value))
      && ParseSubscriber(SubscriberText(s)) == Some((p.prefix, p.hyphen, p.line))
      && s == Flag(p.open, '(') + (p.area + (Flag(p.close, ')') + (SpaceText(p.space) + SubscriberText(s))))
  {
    var t := SkipOptional(s, '(');
    assert t[..2] == [t[0], t[1]];
    PhoneSplit(s);
  }

  /** Every string the recogniser accepts is built from well-formed pieces. */
  lemma PhoneSound(s: string)
    requires MatchPhone(s)
    ensures WellFormedPhone(ParsePhone(s).value)
    ensures RenderPhone(ParsePhone(s).value) == s
  {
    PhoneSoundPieces(s);
    SubscriberSound(SubscriberText(s));
  }

  lemma SkipFlag(present: bool, c: char, rest: string)
    requires |rest| > 0 && rest[0] != c
    ensures StartsWith(Flag(present, c) + rest, c) == present
    ensures SkipOptional(Flag(present, c) + rest, c) == rest
  {
    if present {
      assert (Flag(present, c) + rest)[1..] == rest;
    } else {
      assert Flag(present, c) + rest == rest;
    }
  }

  lemma SkipSpaceText(space: Option<char>, rest: string)
    requires space.Some? ==> IsWhitespace(space.value)
    requires |rest| > 0 && !IsWhitespace(rest[0])
    ensures LeadingSpace(SpaceText(space) + rest) == space
    ensures SkipSpace(SpaceText(space) + rest) == rest
  {
    if space.Some? {
      assert (SpaceText(space) + rest)[1..] == rest;
    } else {
      assert SpaceText(space) + rest == rest;
    }
  }

  /** Rendering well-formed pieces and recognising the result gives the same pieces
      back: the pattern reads every accepted string in exactly one way. */
  lemma PhoneRoundTrip(p: PhoneParts)
    requires WellFormedPhone(p)
    ensures ParsePhone(RenderPhone(p)) == Some(p)
  {
    var sub := RenderSubscriber(p.prefix, p.hyphen, p.line);
    SubscriberRoundTrip(p.prefix, p.hyphen, p.line);
    assert sub[0] == p.prefix[0];
    DigitIsNotWhitespace(p.prefix[0]);
    SkipSpaceText(p.space, sub);
    var v := SpaceText(p.space) + sub;
    assert v[0] == if p.space.Some? then p.space.value else p.prefix[0];
    SkipFlag(p.close, ')', v);
    var u := Flag(p.close, ')') + v;
    var t := p.area + u;
    assert t[..2] == p.area && t[2..] == u;
    assert t[0] == p.area[0] && t[1] == p.area[1];
    SkipFlag(p.open, '(', t);
  }

  /** The recogniser accepts exactly the strings the pattern's pieces produce. */
  lemma PhonePattern(s: string)
    ensures MatchPhone(s) <==> exists p :: WellFormedPhone(p) && RenderPhone(p) == s
  {
    if MatchPhone(s) {
      PhoneSound(s);
    }
    if exists p :: WellFormedPhone(p) && RenderPhone(p) == s {
      var p :| WellFormedPhone(p) && RenderPhone(p) == s;
      PhoneRoundTrip(p);
    }
  }

  /** A character that is not a digit, present or not, adds no digit. */
  lemma DigitCountFlag(present: bool, c: char, rest: string)
    requires !IsDigit(c)
    ensures DigitCount(Flag(present, c) + rest) == DigitCount(rest)
  {
    if present {
      assert (Flag(present, c) + rest)[1..] == rest;
    } else {
      assert Flag(present, c) + rest == rest;
    }
  }

  lemma DigitCountSpace(space: Option<char>, rest: string)
    requires space.Some? ==> IsWhitespace(space.value)
    ensures DigitCount(SpaceText(space) + rest) == DigitCount(rest)
  {
    if space.Some? {
      assert (SpaceText(space) + rest)[1..] == rest;
    } else {
      assert SpaceText(space) + rest == rest;
    }
  }

  lemma DigitCountDigits(digits: string, rest: string)
    requires AllDigits(digits)
    ensures DigitCount(digits + rest) == |digits| + DigitCount(rest)
  {
    DigitCountConcat(digits, rest);
    DigitCountAllDigits(digits);
  }

  /** Every accepted phone carries 10 or 11 digits: two of area code, four or five,
      and four. */
  lemma PhoneDigitCount(s: string)
    requires MatchPhone(s)
    ensures DigitCount(s) == 10 || DigitCount(s) == 11
  {
    PhoneSound(s);
    var p := ParsePhone(s).value;
    DigitCountAllDigits(p.line);
    DigitCountFlag(p.hyphen, '-', p.line);
    DigitCountDigits(p.prefix, Flag(p.hyphen, '-') + p.line);
    var sub := RenderSubscriber(p.prefix, p.hyphen, p.line);
    DigitCountSpace(p.space, sub);
    DigitCountFlag(p.close, ')', SpaceText(p.space) + sub);
    DigitCountDigits(p.area, Flag(p.close, ')') + (SpaceText(p.space) + sub));
    DigitCountFlag(p.open, '(', p.area + (Flag(p.close, ')') + (SpaceText(p.space) + sub)));
  }

  /** An accepted phone is never blank, so the "required" test never hides a match. */
  lemma PhoneNotBlank(s: string)
    ensures MatchPhone(s) ==> Trim(s) != ""
  {
    if MatchPhone(s) {
      var a := if s[0] == '(' then 1 else 0;
      DigitIsNotWhitespace(s[a]);
      NotBlankWhenNonWhitespace(s, a);
    }
  }

  /** A phone the pattern accepts, given as its pieces and as the text they render. */
  lemma PhoneExample(p: PhoneParts, text: string)
    requires WellFormedPhone(p) && RenderPhone(p) == text
    ensures MatchPhone(text)
  {
    PhoneRoundTrip(p);
  }

  /** The example the format message shows is accepted. */
  lemma PhoneAcceptsHint()
    ensures MatchPhone("(11) 99999-9999")
  {
    PhoneExample(PhoneParts(true, "11", true, Some(' '), "99999", true, "9999"), "(11) 99999-9999");
  }

  /** Eleven bare digits are accepted. */
  lemma PhoneAcceptsBareDigits()
    ensures MatchPhone("11999999999")
  {
    PhoneExample(PhoneParts(false, "11", false, None, "99999", false, "9999"), "11999999999");
  }

  /** Whatever the punctuation, fewer than ten digits are rejected, and so are more
      than eleven. */
  lemma PhoneRejectsDigitCount(s: string)
    requires DigitCount(s) < 10 || DigitCount(s) > 11
    ensures !MatchPhone(s)
  {
    if MatchPhone(s) {
      PhoneDigitCount(s);
    }
  }

  /** The parentheses are independent optional pieces: an opening one without its
      closing one passes. */
  lemma PhoneUnbalancedParenthesis()
    ensures MatchPhone("(11 99999-9999")
  {
    PhoneExample(PhoneParts(true, "11", false, Some(' '), "99999", true, "9999"), "(11 99999-9999");
  }

  /** The regular expression is tested on the value as typed, not on its trim. */
  function ValidateTelefone(value: string): (r: Verdict)
    ensures r == Valid <==> MatchPhone(value)
    ensures r != Valid ==> r == if Trim(value) == "" then TelefoneRequired else TelefoneFormat
  {
    PhoneNotBlank(value);
    if Trim(value) == "" then TelefoneRequired
    else if !MatchPhone(value) then TelefoneFormat
    else Valid
  }

  // ---------------------------------------------------------------------------
  // E-mail: ^[^\s@]+@[^\s@]+\.[^\s@]+$

  /** `[^\s@]`. */
  predicate EmailChar(c: char) {
    !IsWhitespace(c) && c != '@'
  }

  /** `[^\s@]+`. */
  predicate EmailWord(t: string) {
    |t| > 0 && forall i :: 0 <= i < |t| ==> EmailChar(t[i])
  }

  /** The three runs of the pattern: before the "@", between it and a ".", and after
      that ".". Either of the last two may itself contain dots. */
  datatype EmailParts = EmailParts(local: string, host: string, tld: string)

  predicate WellFormedEmail(p: EmailParts) {
    EmailWord(p.local) && EmailWord(p.host) && EmailWord(p.tld)
  }

  function RenderEmail(p: EmailParts): string {
    p.local + ("@" + (p.host + ("." + p.tld)))
  }

  /** `[^\s@]+\.[^\s@]+` split at the first "." that has a character on each side. */
  function SplitDomain(d: string): (r: Option<(string, string)>)
    requires |d| > 0
    ensures r.Some? ==> |r.value.0| > 0 && |r.value.1| > 0 && d == r.value.0 + ("." + r.value.1)
    ensures r.None? ==> forall k :: 0 < k < |d| - 1 ==> d[k] != '.'
  {
    match IndexOf(d[1..], '.')
    case None =>
      assert forall k :: 0 < k < |d| ==> d[k] == d[1..][k - 1];
      None
    case Some(j) =>
      if j + 2 < |d| then
        SplitAt(d, j + 1);
        Some((d[..j + 1], d[j + 2..]))
      else
        assert forall k :: 0 < k < |d| - 1 ==> d[k] == d[1..][..j][k - 1];
        None
  }

  /** The e-mail pattern, recognised at the only possible "@" (no run may contain
      one). */
  function ParseEmail(s: string): Option<EmailParts> {
    match IndexOf(s, '@')
    case None => None
    case Some(i) =>
      if !EmailWord(s[..i]) || !EmailWord(s[i + 1..]) then None
      else
        match SplitDomain(s[i + 1..])
        case None => None
        case Some(hd) => Some(EmailParts(s[..i], hd.0, hd.1))
  }

  predicate MatchEmail(s: string) {
    ParseEmail(s).Some?
  }

  lemma EmailWordSplit(h: string, t: string)
    requires |h| > 0 && |t| > 0
    ensures EmailWord(h + ("." + t)) <==> EmailWord(h) && EmailWord(t)
  {
    var d := h + ("." + t);
    assert forall k :: 0 <= k < |h| ==> d[k] == h[k];
    assert forall k :: 0 <= k < |t| ==> d[|h| + 1 + k] == t[k];
    assert forall k :: |h| < k < |d| ==> d[k] == t[k - |h| - 1];
  }

  lemma WordHasNoAt(t: string)
    requires EmailWord(t)
    ensures '@' !in t
  {
    assert forall k :: 0 <= k < |t| ==> t[k] != '@';
  }

  lemma EmailSound(s: string)
    requires MatchEmail(s)
    ensures WellFormedEmail(ParseEmail(s).value) && RenderEmail(ParseEmail(s).value) == s
  {
    var i := IndexOf(s, '@').value;
    var hd := SplitDomain(s[i + 1..]).value;
    EmailWordSplit(hd.0, hd.1);
    SplitAt(s, i);
  }

  /** A rendered address is found at its "@", with the local run before it and the
      domain after it. */
  lemma RenderedEmailAt(p: EmailParts)
    requires WellFormedEmail(p)
    ensures var s := RenderEmail(p);
            IndexOf(s, '@') == Some(|p.local|) &&
            s[..|p.local|] == p.local && s[|p.local| + 1..] == p.host + ("." + p.tld)
  {
    WordHasNoAt(p.local);
    IndexOfFirst(p.local, '@', p.host + ("." + p.tld));
  }

  /** The domain of well-formed runs is a run that splits at some ".". */
  lemma RenderedDomain(host: string, tld: string)
    requires EmailWord(host) && EmailWord(tld)
    ensures EmailWord(host + ("." + tld)) && SplitDomain(host + ("." + tld)).Some?
  {
    var d := host + ("." + tld);
    EmailWordSplit(host, tld);
    assert d[|host|] == '.';
  }

  lemma EmailComplete(p: EmailParts)
    requires WellFormedEmail(p)
    ensures MatchEmail(RenderEmail(p))
  {
    RenderedEmailAt(p);
    RenderedDomain(p.host, p.tld);
  }

  /** The recogniser accepts exactly the strings the pattern's runs produce. */
  lemma EmailPattern(s: string)
    ensures MatchEmail(s) <==> exists p :: WellFormedEmail(p) && RenderEmail(p) == s
  {
    if MatchEmail(s) {
      EmailSound(s);
    }
    if exists p :: WellFormedEmail(p) && RenderEmail(p) == s {
      var p :| WellFormedEmail(p) && RenderEmail(p) == s;
      EmailComplete(p);
    }
  }

  lemma RenderedEmailNoWhitespace(p: EmailParts)
    requires WellFormedEmail(p)
    ensures forall j :: 0 <= j < |RenderEmail(p)| ==> !IsWhitespace(RenderEmail(p)[j])
  {
    var d := p.host + ("." + p.tld);
    EmailWordSplit(p.host, p.tld);
    var s := RenderEmail(p);
    assert forall j :: 0 <= j < |p.local| ==> s[j] == p.local[j];
    assert forall j :: |p.local| < j < |s| ==> s[j] == d[j - |p.local| - 1];
  }

  lemma RenderedEmailOneAt(p: EmailParts)
    requires WellFormedEmail(p)
    ensures multiset(RenderEmail(p))['@'] == 1
  {
    var d := p.host + ("." + p.tld);
    EmailWordSplit(p.host, p.tld);
    WordHasNoAt(p.local);
    WordHasNoAt(d);
    assert multiset(RenderEmail(p)) == multiset(p.local) + (multiset{'@'} + multiset(d));
  }

  /** An accepted e-mail has no white space, exactly one "@", and after it a "."
      with text on both sides. */
  lemma EmailShape(s: string)
    requires MatchEmail(s)
    ensures forall j :: 0 <= j < |s| ==> !IsWhitespace(s[j])
    ensures multiset(s)['@'] == 1
    ensures exists i, k :: 0 < i && i + 1 < k < |s| - 1 && s[i] == '@' && s[k] == '.'
  {
    EmailSound(s);
    var p := ParseEmail(s).value;
    RenderedEmailNoWhitespace(p);
    RenderedEmailOneAt(p);
    var i := |p.local|;
    var k := i + 1 + |p.host|;
    assert s[i] == '@' && s[k] == '.';
  }

  lemma EmailNotBlank(s: string)
    ensures MatchEmail(s) ==> Trim(s) != ""
  {
    if MatchEmail(s) {
      var i := IndexOf(s, '@').value;
      assert EmailChar(s[..i][0]);
      NotBlankWhenNonWhitespace(s, 0);
    }
  }

  /** An address the pattern accepts, given as its runs and as the text they render. */
  lemma EmailExample(p: EmailParts, text: string)
    requires WellFormedEmail(p) && RenderEmail(p) == text
    ensures MatchEmail(text)
  {
    EmailComplete(p);
  }

  /** A typical address is accepted. */
  lemma EmailAcceptsAddress()
    ensures MatchEmail("a@b.com")
  {
    EmailExample(EmailParts("a", "b", "com"), "a@b.com");
  }

  /** Text without an "@" is rejected, the empty string included. */
  lemma EmailRejectsNoAt(s: string)
    requires '@' !in s
    ensures !MatchEmail(s)
  {
  }

  /** A word with hyphens but no "@" is rejected. */
  lemma EmailRejectsWord()
    ensures !MatchEmail("not-an-email")
  {
    EmailRejectsNoAt("not-an-email");
  }

  function ValidateEmail(value: string): (r: Verdict)
    ensures r == Valid <==> MatchEmail(value)
    ensures r != Valid ==> r == if Trim(value) == "" then EmailRequired else EmailFormat
  {
    EmailNotBlank(value);
    if Trim(value) == "" then EmailRequired
    else if !MatchEmail(value) then EmailFormat
    else Valid
  }

  // ---------------------------------------------------------------------------
  // Guest count

  function Pow10(k: nat): (r: nat)
    ensures r >= 1
  {
    if k == 0 then 1 else 10 * Pow10(k - 1)
  }

  /** A decimal literal as `Number` reads it: a sign, the digits before the point and
      the digits after it. */
  datatype Decimal = Decimal(negative: bool, whole: string, fraction: string)

  predicate Numeral(d: Decimal) {
    AllDigits(d.whole) && AllDigits(d.fraction)
  }

  /** The number a literal denotes. */
  function Value(d: Decimal): real
    requires Numeral(d)
  {
    var magnitude := DigitsValue(d.whole) as real + DigitsValue(d.fraction) as real / Pow10(|d.fraction|) as real;
    if d.negative then -magnitude else magnitude
  }

  /** `Number(value)` on decimal literals: surrounding white space is ignored, a
      blank string is 0, and otherwise an optional sign, digits and at most one "."
      with at least one digit in all. Anything else is NaN (`None`). */
  function ParseNumber(value: string): (r: Option<Decimal>)
    ensures r.Some? ==> Numeral(r.value)
  {
    var t := Trim(value);
    if t == "" then Some(Decimal(false, "", ""))
    else
      var body := if t[0] == '+' || t[0] == '-' then t[1..] else t;
      var dot := IndexOf(body, '.');
      var whole := if dot.Some? then body[..dot.value] else body;
      var fraction := if dot.Some? then body[dot.value + 1..] else "";
      if AllDigits(whole) && AllDigits(fraction) && |whole| + |fraction| > 0 then
        Some(Decimal(t[0] == '-', whole, fraction))
      else None
  }

  /** The test `Number(value) < 1`, decided on the literal: a negative literal is
      below 1, and so is one whose whole part is zero. */
  predicate BelowOne(d: Decimal)
    requires Numeral(d)
  {
    d.negative || DigitsValue(d.whole) == 0
  }

  lemma {:induction false} DigitsValueBound(s: string)
    requires AllDigits(s)
    ensures DigitsValue(s) < Pow10(|s|)
  {
    if s != [] {
      var init := s[..|s| - 1];
      DigitsValueBound(init);
      assert DigitsValue(s) == DigitsValue(init) * 10 + DigitValue(s[|s| - 1]);
      assert DigitsValue(init) * 10 <= (Pow10(|init|) - 1) * 10;
    }
  }

  lemma ProperFraction(num: nat, den: nat)
    requires num < den
    ensures 0.0 <= num as real / den as real < 1.0
  {
    var q := num as real / den as real;
    assert q * den as real == num as real;
  }

  /** BelowOne is exactly `Number(value) < 1`: the fraction is always below 1. */
  lemma BelowOneIsValueBelowOne(d: Decimal)
    requires Numeral(d)
    ensures BelowOne(d) <==> Value(d) < 1.0
  {
    DigitsValueBound(d.fraction);
    ProperFraction(DigitsValue(d.fraction), Pow10(|d.fraction|));
  }

  function ValidateNumConvidados(value: string): (r: Verdict)
    ensures r == Valid <==> value == "" || (ParseNumber(value).Some? && !BelowOne(ParseNumber(value).value))
    ensures value != "" && ParseNumber(value).None? ==> r == ConvidadosNotNumber
  {
    if value == "" then Valid
    else if ParseNumber(value).None? then ConvidadosNotNumber
    else if BelowOne(ParseNumber(value).value) then ConvidadosNotPositive
    else Valid
  }

  /** A whole number written in digits is accepted exactly when it is at least 1. */
  lemma GuestCountOfWholeNumber(n: nat)
    ensures ValidateNumConvidados(NatToString(n)) == Valid <==> n >= 1
  {
    var s := NatToString(n);
    DigitIsNotWhitespace(s[0]);
    DigitIsNotWhitespace(s[|s| - 1]);
    TrimUnchanged(s);
    assert IndexOf(s, '.') == None;
    NatToStringRoundTrip(n);
    assert ParseNumber(s) == Some(Decimal(false, s, ""));
  }

  /** The guest count is optional, but a value made only of spaces is not empty:
      `Number` reads it as 0, which is then reported as not positive. */
  lemma GuestCountBlank()
    ensures ValidateNumConvidados("") == Valid
    ensures ValidateNumConvidados("   ") == ConvidadosNotPositive
  {
    TrimEmptyIff("   ");
  }

  /** Text whose first non-blank character cannot start a number (not a sign, a
      digit or a ".") is reported as not a number. */
  lemma GuestCountRejectsText(value: string)
    requires Trim(value) != ""
    requires var c := Trim(value)[0]; !IsDigit(c) && c != '+' && c != '-' && c != '.'
    ensures ValidateNumConvidados(value) == ConvidadosNotNumber
  {
    var t := Trim(value);
    var dot := IndexOf(t, '.');
    var whole := if dot.Some? then t[..dot.value] else t;
    assert whole[0] == t[0];
  }

  // ---------------------------------------------------------------------------
  // Allergies

  /** Required only when the allergy answer is "sim". */
  function ValidateAlergias(value: string, temAlergia: string): (r: Verdict)
    ensures r != Valid <==> temAlergia == "sim" && Trim(value) == ""
    ensures r != Valid ==> r == AlergiasRequired
  {
    if temAlergia == "sim" && Trim(value) == "" then AlergiasRequired else Valid
  }

  // ---------------------------------------------------------------------------
  // Submission

  datatype QuoteForm = QuoteForm(
    nome: string, telefone: string, email: string, tipoEvento: string, dataEvento: string,
    numConvidados: string, detalhes: string, temAlergia: string, alergias: string)

  /** The keys of the error object: the fields that are validated. */
  datatype Field = Nome | Telefone | Email | NumConvidados | Alergias

  /** The error object `handleSubmit` builds from the five verdicts. */
  function ErrorMap(nome: Verdict, telefone: Verdict, email: Verdict, numConvidados: Verdict,
                    alergias: Verdict): map<Field, Verdict>
  {
    map[Nome := nome, Telefone := telefone, Email := email, NumConvidados := numConvidados,
        Alergias := alergias]
  }

  /** The error object for a form: one verdict per validated field. */
  function FieldErrors(f: QuoteForm): map<Field, Verdict> {
    ErrorMap(ValidateNome(f.nome), ValidateTelefone(f.telefone), ValidateEmail(f.email),
             ValidateNumConvidados(f.numConvidados), ValidateAlergias(f.alergias, f.temAlergia))
  }

  /** `Object.values(errors).some(msg => msg !== "")`. */
  predicate HasError(errors: map<Field, Verdict>) {
    exists k :: k in errors && errors[k] != Valid
  }

  /** Every field keeps its own verdict, whatever the others say, and the object has
      an error exactly when one of them is not Valid. */
  lemma ErrorMapEntries(nome: Verdict, telefone: Verdict, email: Verdict, numConvidados: Verdict,
                        alergias: Verdict)
    ensures var e := ErrorMap(nome, telefone, email, numConvidados, alergias);
      && e.Keys == {Nome, Telefone, Email, NumConvidados, Alergias}
      && e[Nome] == nome && e[Telefone] == telefone && e[Email] == email
      && e[NumConvidados] == numConvidados && e[Alergias] == alergias
      && (HasError(e) <==>
            nome != Valid || telefone != Valid || email != Valid || numConvidados != Valid || alergias != Valid)
  {
    var e := ErrorMap(nome, telefone, email, numConvidados, alergias);
    if nome != Valid { assert e[Nome] != Valid; }
    if telefone != Valid { assert e[Telefone] != Valid; }
    if email != Valid { assert e[Email] != Valid; }
    if numConvidados != Valid { assert e[NumConvidados] != Valid; }
    if alergias != Valid { assert e[Alergias] != Valid; }
  }

  /** Submission is not fail-fast: every field's own verdict is stored, whatever the
      others say, and the form goes through exactly when all five pass. */
  lemma SubmitReportsEveryField(f: QuoteForm)
    ensures var e := FieldErrors(f);
      && e.Keys == {Nome, Telefone, Email, NumConvidados, Alergias}
      && (e[Nome] != Valid <==> |Trim(f.nome)| < 3)
      && (e[Telefone] != Valid <==> !MatchPhone(f.telefone))
      && (e[Email] != Valid <==> !MatchEmail(f.email))
      && (e[NumConvidados] != Valid <==>
            f.numConvidados != "" && (ParseNumber(f.numConvidados).None? || BelowOne(ParseNumber(f.numConvidados).value)))
      && (e[Alergias] != Valid <==> f.temAlergia == "sim" && Trim(f.alergias) == "")
      && (!HasError(e) <==>
            && |Trim(f.nome)| >= 3 && MatchPhone(f.telefone) && MatchEmail(f.email)
            && ValidateNumConvidados(f.numConvidados) == Valid
            && !(f.temAlergia == "sim" && Trim(f.alergias) == ""))
  {
    ErrorMapEntries(ValidateNome(f.nome), ValidateTelefone(f.telefone), ValidateEmail(f.email),
                    ValidateNumConvidados(f.numConvidados), ValidateAlergias(f.alergias, f.temAlergia));
  }

  function AllergyText(f: QuoteForm): string {
    f.temAlergia + (if f.temAlergia == "sim" then " (" + f.alergias + ")" else "")
  }

  /** The last line of the message. */
  function AllergyLine(f: QuoteForm): string {
    "\n- Possui alergia: " + AllergyText(f) + "\n    "
  }

  /** The text handed to the messaging link. */
  function ComposeMessage(f: QuoteForm): string {
    "\nOlá, quero solicitar um orçamento:\n- Nome: " + f.nome +
    "\n- Telefone: " + f.telefone +
    "\n- E-mail: " + f.email +
    "\n- Tipo de Evento: " + f.tipoEvento +
    "\n- Data do Evento: " + f.dataEvento +
    "\n- Número de Convidados: " + f.numConvidados +
    "\n- Detalhes: " + f.detalhes + AllergyLine(f)
  }

  predicate EndsWith(s: string, suffix: string) {
    |suffix| <= |s| && s[|s| - |suffix|..] == suffix
  }

  lemma EndsWithConcat(s: string, suffix: string)
    ensures EndsWith(s + suffix, suffix)
  {
    assert (s + suffix)[|s|..] == suffix;
  }

  /** The message closes on the allergy line, which carries the allergy details in
      parentheses when the answer is "sim" and only the answer otherwise. */
  lemma MessageAllergyLine(f: QuoteForm)
    ensures EndsWith(ComposeMessage(f), AllergyLine(f))
    ensures f.temAlergia == "sim" ==> AllergyText(f) == "sim (" + f.alergias + ")"
    ensures f.temAlergia != "sim" ==> AllergyText(f) == f.temAlergia
  {
    var m := ComposeMessage(f);
    EndsWithConcat(m[..|m| - |AllergyLine(f)|], AllergyLine(f));
    assert m == m[..|m| - |AllergyLine(f)|] + AllergyLine(f);
  }

  // ---------------------------------------------------------------------------
  // The component

  class ContactSection {
    var nome: string
    var telefone: string
    var email: string
    var tipoEvento: string
    var dataEvento: string
    var numConvidados: string
    var detalhes: string
    var temAlergia: string
    var alergias: string
    var errors: map<Field, Verdict>

    /** The nine form fields; the error object is not part of them. */
    function Form(): QuoteForm
      reads this`nome, this`telefone, this`email, this`tipoEvento, this`dataEvento
      reads this`numConvidados, this`detalhes, this`temAlergia, this`alergias
    {
      QuoteForm(nome, telefone, email, tipoEvento, dataEvento, numConvidados, detalhes, temAlergia, alergias)
    }

    constructor ()
      ensures Form() == QuoteForm("", "", "", "", "", "", "", "não", "") && errors == map[]
    {
      nome, telefone, email, tipoEvento, dataEvento := "", "", "", "", "";
      numConvidados, detalhes, temAlergia, alergias := "", "", "não", "";
      errors := map[];
    }

    /** `handleSubmit`; `message` is the text sent to the messaging link, if any. */
    method HandleSubmit() returns (message: Option<string>)
      modifies this`errors
      ensures errors == FieldErrors(Form())
      ensures message == if HasError(errors) then None else Some(ComposeMessage(Form()))
    {
      var form := Form();
      errors := FieldErrors(form);
      assert Form() == form;
      if HasError(errors) {
        return None;
      }
      message := Some(ComposeMessage(form));
    }
  }
}
