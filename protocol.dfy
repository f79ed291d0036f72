/** The pure part of the HTTP action protocol of the automation server
    (server/index.js): argument checks and defaults of `/navigate` and
    `/action`, the Enter-key trigger, the click fallback, the `/downloads`
    filter, the `/extract` sentinel and the screenshot fields. */
module Protocol {
  import opened Common

  // ---------------------------------------------------------------------
  // JavaScript truthiness of request fields

  /** A request field that is present and not the empty string (`!!x` for a
      string-valued JSON field). */
  predicate Given(field: Option<string>) {
    field.Some? && field.value != ""
  }

  // ---------------------------------------------------------------------
  // parseInt without a radix (section 19.2.5 of ECMA-262); None is NaN

  predicate IsDigit(c: char, radix: nat) {
    ('0' <= c <= '9') ||
    (radix == 16 && (('a' <= c <= 'f') || ('A' <= c <= 'F')))
  }

  function DigitValue(c: char): (d: nat)
    requires IsDigit(c, 16)
    ensures d < 16
    ensures '0' <= c <= '9' ==> d < 10
  {
    if '0' <= c <= '9' then c as nat - '0' as nat
    else if 'a' <= c <= 'f' then c as nat - 'a' as nat + 10
    else c as nat - 'A' as nat + 10
  }

  /** The longest prefix of `s` made of digits of `radix`. */
  function DigitPrefix(s: string, radix: nat): (ds: string)
    ensures |ds| <= |s| && ds == s[..|ds|]
    ensures forall i :: 0 <= i < |ds| ==> IsDigit(ds[i], radix)
    ensures |ds| < |s| ==> !IsDigit(s[|ds|], radix)
  {
    if s != [] && IsDigit(s[0], radix) then [s[0]] + DigitPrefix(s[1..], radix) else []
  }

  /** The number the digits `ds` denote in base `radix`. */
  function DigitsValue(ds: string, radix: nat): nat
    requires radix == 10 || radix == 16
    requires forall i :: 0 <= i < |ds| ==> IsDigit(ds[i], radix)
  {
    if ds == [] then 0
    else
      assert IsDigit(ds[|ds| - 1], radix);
      DigitsValue(ds[..|ds| - 1], radix) * radix + DigitValue(ds[|ds| - 1])
  }

  /** The digits after the sign: a hexadecimal number after `0x`/`0X`, a
      decimal one otherwise, read up to the first character that is not a
      digit; no digit at all gives NaN (None). */
  function ParseUnsigned(u: string): Option<nat> {
    var hex := |u| >= 2 && u[0] == '0' && (u[1] == 'x' || u[1] == 'X');
    var radix := if hex then 16 else 10;
    var ds := DigitPrefix(if hex then u[2..] else u, radix);
    if ds == [] then None else Some(DigitsValue(ds, radix))
  }

  /** `parseInt(s)`: skip leading whitespace, take one sign, read the digits. */
  function ParseInt(s: string): (r: Option<int>)
    // blank text is NaN
    ensures IsBlank(s) ==> r.None?
    // the sign of the number is the sign written, if any
    ensures r.Some? ==>
      TrimStart(s) != [] &&
      (r.value < 0 ==> TrimStart(s)[0] == '-') &&
      (TrimStart(s)[0] == '-' ==> r.value <= 0)
  {
    var t := TrimStart(s);
    var u := if t != [] && (t[0] == '-' || t[0] == '+') then t[1..] else t;
    match ParseUnsigned(u)
    case None => None
    case Some(v) => if t != [] && t[0] == '-' then Some(0 - v as int) else Some(v as int)
  }

  /** `parseInt(value)` of a request field; a missing field reads "undefined". */
  function ParseField(value: Option<string>): Option<int> {
    if value.None? then None else ParseInt(value.value)
  }

  /** `String(n)` for a natural number: decimal digits, no leading zero. */
  function NatString(n: nat): (s: string)
    ensures |s| >= 1
    ensures forall i :: 0 <= i < |s| ==> '0' <= s[i] <= '9'
    ensures n >= 10 ==> s[0] != '0'
  {
    if n < 10 then [('0' as nat + n) as char]
    else NatString(n / 10) + [('0' as nat + n % 10) as char]
  }

  /** `String(n)` for an integer. */
  function IntString(n: int): string {
    if n < 0 then "-" + NatString(-n) else NatString(n)
  }

  lemma {:induction false} NatStringValue(n: nat)
    ensures DigitsValue(NatString(n), 10) == n
  {
    var s := NatString(n);
    if n >= 10 {
      NatStringValue(n / 10);
      assert s[..|s| - 1] == NatString(n / 10);
    }
  }

  lemma {:induction false} DigitPrefixOfDigits(s: string)
    requires forall i :: 0 <= i < |s| ==> '0' <= s[i] <= '9'
    ensures DigitPrefix(s, 10) == s
  {
    if s != [] {
      DigitPrefixOfDigits(s[1..]);
    }
  }

  /** The digits `String` prints read back as the number they came from. */
  lemma ParseUnsignedNatString(m: nat)
    ensures ParseUnsigned(NatString(m)) == Some(m)
  {
    var d := NatString(m);
    NatStringValue(m);
    DigitPrefixOfDigits(d);
    assert !(|d| >= 2 && d[0] == '0');
  }

  lemma ParseIntDigits(d: string, m: nat)
    requires d != [] && '0' <= d[0] <= '9' && ParseUnsigned(d) == Some(m)
    ensures ParseInt(d) == Some(m)
  {
    assert !IsJsSpace(d[0]);
    assert TrimStart(d) == d;
    assert d[0] != '-' && d[0] != '+';
  }

  lemma ParseIntMinusDigits(d: string, m: nat)
    requires d != [] && '0' <= d[0] <= '9' && ParseUnsigned(d) == Some(m)
    ensures ParseInt("-" + d) == Some(0 - m)
  {
    var s := "-" + d;
    assert s[0] == '-' && !IsJsSpace(s[0]);
    assert TrimStart(s) == s;
    assert s[1..] == d;
  }

  /** parseInt reads back every integer that String prints. */
  lemma ParseIntString(n: int)
    ensures ParseInt(IntString(n)) == Some(n)
  {
    if n < 0 {
      ParseUnsignedNatString(-n);
      ParseIntMinusDigits(NatString(-n), -n);
    } else {
      ParseUnsignedNatString(n);
      ParseIntDigits(NatString(n), n);
    }
  }

  // ---------------------------------------------------------------------
  // /action: scroll and wait amounts

  const DefaultScroll: int := 500
  const DefaultWait: int := 2000

  /** `parseInt(value) || fallback`: NaN and 0 both give the fallback. */
  function NumberOr(value: Option<string>, fallback: int): (r: int)
    ensures ParseField(value).Some? && ParseField(value).value != 0 ==> r == ParseField(value).value
    ensures ParseField(value).None? || ParseField(value).value == 0 ==> r == fallback
  {
    var n := ParseField(value);
    if n.None? || n.value == 0 then fallback else n.value
  }

  /** The pixel delta of a scroll step. */
  function ScrollDelta(value: Option<string>): (r: int)
    // a scroll always moves the page
    ensures r != 0
    ensures value.None? ==> r == DefaultScroll
  {
    NumberOr(value, DefaultScroll)
  }

  /** The pause of a wait step, in milliseconds. */
  function WaitMillis(value: Option<string>): (r: int)
    // a wait never collapses to no pause
    ensures r != 0
    ensures value.None? ==> r == DefaultWait
  {
    NumberOr(value, DefaultWait)
  }

  /** A field holding a printed non-zero number moves by exactly that number;
      a missing field, `"0"` and text with no leading digits fall back. */
  lemma ScrollAndWaitDefaults(n: int)
    ensures n != 0 ==> ScrollDelta(Some(IntString(n))) == n && WaitMillis(Some(IntString(n))) == n
    ensures ScrollDelta(Some(IntString(0))) == DefaultScroll && WaitMillis(Some(IntString(0))) == DefaultWait
    ensures ScrollDelta(None) == DefaultScroll && WaitMillis(None) == DefaultWait
  {
    ParseIntString(n);
    ParseIntString(0);
    assert ParseField(Some(IntString(n))) == Some(n);
    assert ParseField(Some(IntString(0))) == Some(0);
  }

  // ---------------------------------------------------------------------
  // /action: the Enter key after typing

  /** The two characters backslash and `n`, as the server spells them. */
  const EscapedNewline: string := "\\n"

  /** Enter is pressed after typing when the text holds the two-character
      sequence backslash-n or the word `Enter`. */
  predicate PressesEnter(value: string)
    // both markers are two characters or longer
    ensures PressesEnter(value) ==> |value| >= 2
  {
    ContainsFits(value, EscapedNewline);
    ContainsFits(value, "Enter");
    Contains(value, EscapedNewline) || Contains(value, "Enter")
  }

  /** Ending the text with backslash-n, as the model is told to, presses Enter. */
  lemma EscapedNewlinePressesEnter(text: string)
    ensures PressesEnter(text + EscapedNewline)
  {
    ContainsInfix(text, EscapedNewline, "");
    assert text + EscapedNewline + "" == text + EscapedNewline;
  }

  /** A text without a backslash and without a capital E never presses Enter;
      in particular a real line break does not. */
  lemma NoEnterWithoutMarker(value: string)
    requires '\\' !in value && 'E' !in value
    ensures !PressesEnter(value)
  {
    ContainsNeedsChar(value, EscapedNewline, 0);
    ContainsNeedsChar(value, "Enter", 0);
  }

  lemma RealNewlineDoesNotPressEnter()
    ensures !PressesEnter("hello\n")
    ensures PressesEnter("hello\\n")
  {
    NoEnterWithoutMarker("hello\n");
    EscapedNewlinePressesEnter("hello");
  }

  // ---------------------------------------------------------------------
  // /action: argument checks

  const ClickNeedsSelector: string := "Selector requerido para click"
  const TypeNeedsSelectorAndText: string := "Selector y texto requeridos para type"
  const SelectNeedsSelectorAndValue: string := "Selector y valor requeridos para select"

  /** What an accepted `/action` request asks the page to do. */
  datatype Step =
    | Click(selector: string)
    | Type(selector: string, text: string, pressEnter: bool)
    | Select(selector: string, option: string)
    | Scroll(delta: int)
    | Wait(millis: int)
    | Idle   // an action type the server does not know: nothing is done

  /** The branch of `/action` that checks the request: click needs a
      selector; type needs a selector and a text, which may be empty; select
      needs a selector and a non-empty value; scroll and wait take defaults;
      any other type does nothing. */
  function PlanAction(kind: string, selector: Option<string>, value: Option<string>)
    : (r: Result<Step, string>)
    ensures r.Err? <==>
      (kind == "click" && !Given(selector)) ||
      (kind == "type" && (!Given(selector) || value.None?)) ||
      (kind == "select" && (!Given(selector) || !Given(value)))
    ensures r.Err? ==>
      r.error == (if kind == "click" then ClickNeedsSelector
                  else if kind == "type" then TypeNeedsSelectorAndText
                  else SelectNeedsSelectorAndValue)
    ensures r.Ok? && kind == "click" ==> r.value == Click(selector.value)
    ensures r.Ok? && kind == "type" ==>
      r.value == Type(selector.value, value.value, PressesEnter(value.value))
    ensures r.Ok? && kind == "select" ==> r.value == Select(selector.value, value.value)
    ensures kind !in {"click", "type", "select", "scroll", "wait"} ==> r == Ok(Idle)
    ensures r.Ok? && r.value.Scroll? ==> r.value.delta != 0
    ensures r.Ok? && r.value.Wait? ==> r.value.millis != 0
  {
    if kind == "click" then
      if !Given(selector) then Err(ClickNeedsSelector) else Ok(Click(selector.value))
    else if kind == "type" then
      if !Given(selector) || value.None? then Err(TypeNeedsSelectorAndText)
      else Ok(Type(selector.value, value.value, PressesEnter(value.value)))
    else if kind == "select" then
      if !Given(selector) || !Given(value) then Err(SelectNeedsSelectorAndValue)
      else Ok(Select(selector.value, value.value))
    else if kind == "scroll" then Ok(Scroll(ScrollDelta(value)))
    else if kind == "wait" then Ok(Wait(WaitMillis(value)))
    else Ok(Idle)
  }

  // ---------------------------------------------------------------------
  // /action: carrying a step out on the page

  /** What the page offers: the selectors present in the document, those a
      native click does not throw on (the element has a visible box within
      the 5 s wait), those naming a `<select>` element, and those that are
      not valid CSS at all. Then the driver's messages: when waiting for a
      selector times out, when clicking into, typing into or selecting on a
      present element throws, when waiting on an invalid selector, and the
      page script's message when `document.querySelector` rejects one. */
  datatype Dom = Dom(present: set<string>, clickable: set<string>, selects: set<string>,
                     invalid: set<string>,
                     timeoutMessage: string, driverMessage: string,
                     syntaxMessage: string, scriptSyntaxMessage: string)

  /** What a step did. `Typed` records the keystrokes sent to the field after
      its old value was cleared. */
  datatype Effect =
    | Clicked(selector: string, byScript: bool)
    | Typed(selector: string, keys: string, enter: bool)
    | Selected(selector: string, option: string)
    | Scrolled(delta: int)
    | Waited(millis: int)
    | Nothing

  function NotInDom(selector: string): string {
    "Elemento no encontrado en DOM: " + selector
  }

  /** Click natively when that works, else click from a script when the
      element exists at all, else fail; a selector that is not valid CSS
      makes the script itself throw. Typing waits for the element, clears
      it, clicks into it and types, and fails when the selector is invalid,
      the element is absent or the click into it throws. Selecting waits for
      the element and fails when the selector is invalid, the element is
      absent or it is not a `<select>`. Scroll and wait always succeed. */
  function Perform(step: Step, dom: Dom): (r: Result<Effect, string>)
    ensures step.Click? ==>
      (r.Err? <==> step.selector in dom.invalid ||
                   (step.selector !in dom.clickable && step.selector !in dom.present)) &&
      (step.selector in dom.invalid ==> r == Err(dom.scriptSyntaxMessage)) &&
      (step.selector !in dom.invalid && r.Err? ==> r.error == NotInDom(step.selector)) &&
      (r.Ok? ==> r.value == Clicked(step.selector, step.selector !in dom.clickable))
    ensures step.Type? ==>
      (r.Err? <==> step.selector in dom.invalid || step.selector !in dom.present ||
                   step.selector !in dom.clickable) &&
      (step.selector in dom.invalid ==> r == Err(dom.syntaxMessage)) &&
      (step.selector !in dom.invalid && step.selector !in dom.present ==> r == Err(dom.timeoutMessage)) &&
      (step.selector !in dom.invalid && step.selector in dom.present && step.selector !in dom.clickable ==>
         r == Err(dom.driverMessage)) &&
      (r.Ok? ==> r.value == Typed(step.selector, step.text, step.pressEnter))
    ensures step.Select? ==>
      (r.Err? <==> step.selector in dom.invalid || step.selector !in dom.present ||
                   step.selector !in dom.selects) &&
      (step.selector in dom.invalid ==> r == Err(dom.syntaxMessage)) &&
      (step.selector !in dom.invalid && step.selector !in dom.present ==> r == Err(dom.timeoutMessage)) &&
      (step.selector !in dom.invalid && step.selector in dom.present && step.selector !in dom.selects ==>
         r == Err(dom.driverMessage)) &&
      (r.Ok? ==> r.value == Selected(step.selector, step.option))
    ensures step.Scroll? ==> r == Ok(Scrolled(step.delta))
    ensures step.Wait? ==> r == Ok(Waited(step.millis))
    ensures step.Idle? ==> r == Ok(Nothing)
  {
    match step
    case Click(sel) =>
      if sel in dom.invalid then Err(dom.scriptSyntaxMessage)
      else if sel in dom.clickable then Ok(Clicked(sel, false))
      else if sel in dom.present then Ok(Clicked(sel, true))
      else Err(NotInDom(sel))
    case Type(sel, text, enter) =>
      if sel in dom.invalid then Err(dom.syntaxMessage)
      else if sel !in dom.present then Err(dom.timeoutMessage)
      else if sel !in dom.clickable then Err(dom.driverMessage)
      else Ok(Typed(sel, text, enter))
    case Select(sel, option) =>
      if sel in dom.invalid then Err(dom.syntaxMessage)
      else if sel !in dom.present then Err(dom.timeoutMessage)
      else if sel !in dom.selects then Err(dom.driverMessage)
      else Ok(Selected(sel, option))
    case Scroll(dy) => Ok(Scrolled(dy))
    case Wait(ms) => Ok(Waited(ms))
    case Idle => Ok(Nothing)
  }

  // ---------------------------------------------------------------------
  // /downloads

  const PartialDownloadSuffix: string := ".crdownload"

  /** `/downloads` falls back to `'default'` for a missing or empty profile. */
  function DownloadsProfile(profileId: Option<string>): (p: string)
    ensures Given(profileId) ==> p == profileId.value
    ensures !Given(profileId) ==> p == "default"
  {
    if Given(profileId) then profileId.value else "default"
  }

  /** A file name worth reporting: not hidden, not a download in progress. */
  predicate Listed(name: string)
    ensures |name| > 0 && name[0] == '.' ==> !Listed(name)
    ensures (|name| >= |PartialDownloadSuffix| &&
             name[|name| - |PartialDownloadSuffix|..] == PartialDownloadSuffix) ==> !Listed(name)
  {
    !StartsWith(name, ".") && !EndsWith(name, PartialDownloadSuffix)
  }

  /** `a` is `b` with some elements left out, the rest in their order. */
  predicate IsSubsequence<T(==)>(a: seq<T>, b: seq<T>)
    decreases |b|
  {
    if b == [] then a == []
    else (a != [] && a[0] == b[0] && IsSubsequence(a[1..], b[1..])) || IsSubsequence(a, b[1..])
  }

  /** Leaving everything out is always a subsequence. */
  lemma {:induction false} EmptyIsSubsequence<T>(b: seq<T>)
    ensures IsSubsequence([], b)
    decreases |b|
  {
    if b != [] {
      EmptyIsSubsequence(b[1..]);
    }
  }

  /** The names of the downloads folder that are listed: exactly the listed
      ones, each as often as in the folder, in the folder's order. */
  function FilterDownloads(names: seq<string>): (r: seq<string>)
    ensures IsSubsequence(r, names)
    ensures forall f :: f in r <==> f in names && Listed(f)
    ensures forall f :: multiset(r)[f] == if Listed(f) then multiset(names)[f] else 0
  {
    if names == [] then []
    else
      var rest := FilterDownloads(names[1..]);
      assert names == [names[0]] + names[1..];
      if Listed(names[0]) then [names[0]] + rest else rest
  }

  // ---------------------------------------------------------------------
  // /extract

  const NotFoundSentinel: string := "Elemento no encontrado"

  /** Without a selector the whole page text; with one, the text of the
      element it matches, or the sentinel string when nothing matches. */
  function ExtractText(selector: Option<string>, bodyText: string, elementText: map<string, string>)
    : (r: string)
    ensures !Given(selector) ==> r == bodyText
    ensures Given(selector) && selector.value in elementText ==> r == elementText[selector.value]
    ensures Given(selector) && selector.value !in elementText ==> r == NotFoundSentinel
  {
    if !Given(selector) then bodyText
    else if selector.value in elementText then elementText[selector.value]
    else NotFoundSentinel
  }

  // ---------------------------------------------------------------------
  // /navigate

  const MissingUrl: string := "Falta el parámetro 'url'"
  const ContentBudget: nat := 20000

  /** The page text a navigation reports: the first 20000 characters. */
  function PageContent(bodyText: string): (r: string)
    ensures |r| <= ContentBudget && StartsWith(bodyText, r)
    ensures |bodyText| <= ContentBudget ==> r == bodyText
  {
    Take(bodyText, ContentBudget)
  }

  // ---------------------------------------------------------------------
  // screenshots

  const JpegDataUriPrefix: string := "data:image/jpeg;base64,"

  /** `getScreenshot(p)`: nothing for a missing or closed page, nothing when
      the capture throws (`capture` is None), the base64 image otherwise. */
  function Screenshot(pageOpen: bool, capture: Option<string>): (r: Option<string>)
    ensures r.Some? <==> pageOpen && capture.Some?
    ensures r.Some? ==> r == capture
  {
    if !pageOpen then None else capture
  }

  /** The screenshot field of a successful action or navigation: always a
      data URI, which reads `...base64,null` when there was no image. */
  function SuccessShotField(shot: Option<string>): (r: string)
    ensures StartsWith(r, JpegDataUriPrefix)
    ensures shot.Some? ==> r == JpegDataUriPrefix + shot.value
    ensures shot.None? ==> r == JpegDataUriPrefix + "null"
  {
    JpegDataUriPrefix + (if shot.Some? then shot.value else "null")
  }

  /** The screenshot field of a failed action and of a status report: null
      when there was no image. */
  function NullableShotField(shot: Option<string>): (r: Option<string>)
    ensures r.Some? <==> shot.Some?
    ensures r.Some? ==> r.value == JpegDataUriPrefix + shot.value
  {
    if shot.Some? then Some(JpegDataUriPrefix + shot.value) else None
  }
}
