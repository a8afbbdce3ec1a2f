/**
 * The front end's formatting and role helpers, in their typed and untyped
 * builds. JavaScript's loose values are explicit: a text argument may be
 * null, undefined or a string (the empty string is falsy), and the
 * locale-dependent formatting of a present value is a parameter.
 */
module Helpers {
  import opened Common

  /** A UTF-16 code unit: JavaScript's `length` and `substring` count and cut these, not characters. */
  newtype CodeUnit = x: int | 0 <= x < 0x1_0000

  /** A JavaScript string: a sequence of UTF-16 code units. */
  type JsString = seq<CodeUnit>

  /** The code units of one character: itself below U+10000, otherwise a high and a low surrogate. */
  function Units(c: char): (u: JsString)
    ensures |u| == if (c as int) < 0x1_0000 then 1 else 2
    ensures |u| == 2 ==> IsHighSurrogate(u[0]) && IsLowSurrogate(u[1])
  {
    var v := c as int;
    if v < 0x1_0000 then [v as CodeUnit]
    else [(0xD800 + (v - 0x1_0000) / 0x400) as CodeUnit, (0xDC00 + (v - 0x1_0000) % 0x400) as CodeUnit]
  }

  predicate IsHighSurrogate(u: CodeUnit) {
    0xD800 <= u < 0xDC00
  }

  predicate IsLowSurrogate(u: CodeUnit) {
    0xDC00 <= u < 0xE000
  }

  /** The JavaScript string holding a text: each character's code units in turn. */
  function Utf16(s: string): (r: JsString)
    ensures |r| >= |s|
    ensures (forall i :: 0 <= i < |s| ==> (s[i] as int) < 0x1_0000) ==> |r| == |s|
  {
    if s == [] then [] else Units(s[0]) + Utf16(s[1..])
  }

  /** The marker `'...'`. */
  const Ellipsis: JsString := [46, 46, 46]

  /** A JavaScript value that is a string, null or undefined. */
  datatype JsText = Null | Undefined | Str(s: JsString)

  predicate Falsy(t: JsText) {
    t == Null || t == Undefined || t == Str([])
  }

  /** `String.prototype.substring(0, n)`: a negative end counts as 0, an end past the string as its length. */
  function Prefix(s: JsString, n: int): (r: JsString)
    ensures |r| == if n < 0 then 0 else if n > |s| then |s| else n
    ensures r <= s
  {
    if n < 0 then [] else if n > |s| then s else s[..n]
  }

  /** Typed build: empty or short text comes back unchanged (missing text as ''), longer text is cut and marked. */
  function TruncateText(text: JsText, maxLength: int): (r: JsString)
    ensures Falsy(text) ==> r == []
    ensures text.Str? && |text.s| <= maxLength ==> r == text.s
    ensures text.Str? && text.s != [] && |text.s| > maxLength ==> r == Prefix(text.s, maxLength) + Ellipsis
  {
    if Falsy(text) || |text.s| <= maxLength then
      if text.Str? then text.s else []
    else Prefix(text.s, maxLength) + Ellipsis
  }

  /** Untyped build: falsy or short input is returned as it came, null and undefined included. */
  function TruncateTextUntyped(text: JsText, maxLength: int): (r: JsText)
    ensures Falsy(text) || (text.Str? && |text.s| <= maxLength) ==> r == text
    ensures text.Str? && text.s != [] && |text.s| > maxLength ==> r == Str(Prefix(text.s, maxLength) + Ellipsis)
  {
    if Falsy(text) || |text.s| <= maxLength then text
    else Str(Prefix(text.s, maxLength) + Ellipsis)
  }

  /** A truncated string keeps the first `maxLength` code units and is three longer. */
  lemma TruncateShape(text: JsString, maxLength: int)
    requires 0 <= maxLength < |text|
    ensures |TruncateText(Str(text), maxLength)| == maxLength + 3
    ensures TruncateText(Str(text), maxLength)[..maxLength] == text[..maxLength]
    ensures TruncateText(Str(text), maxLength)[maxLength..] == Ellipsis
  {
  }

  /** Truncating never yields something longer than the limit plus the marker, and never grows short text. */
  lemma {:induction false} TruncateBound(text: JsString, maxLength: int)
    ensures 0 <= maxLength ==> |TruncateText(Str(text), maxLength)| <= maxLength + 3
    ensures |TruncateText(Str(text), maxLength)| <= |text| + 3
  {
  }

  /** The two builds agree on every string input, and differ only in what null and undefined become. */
  lemma TruncateBuildsAgree(text: JsText, maxLength: int)
    ensures text.Str? ==> TruncateTextUntyped(text, maxLength) == Str(TruncateText(text, maxLength))
    ensures !text.Str? ==> TruncateTextUntyped(text, maxLength) == text && TruncateText(text, maxLength) == []
  {
  }

  /**
   * The limit counts code units, not characters: two characters beyond
   * U+FFFF are four units long, so a limit of 3 truncates them, and the cut
   * keeps the first character and a lone high surrogate of the second.
   */
  lemma TruncateSplitsSurrogatePair(c: char)
    requires (c as int) >= 0x1_0000
    ensures var t := Utf16([c, c]);
      |t| == 4 && TruncateText(Str(t), 3) == Units(c) + [t[2]] + Ellipsis
      && IsHighSurrogate(TruncateText(Str(t), 3)[2]) && !IsLowSurrogate(TruncateText(Str(t), 3)[3])
  {
    var t := Utf16([c, c]);
    assert [c, c][1..] == [c] && [c][1..] == [];
    assert Utf16([c]) == Units(c) + Utf16([]) == Units(c);
    assert t == Units(c) + Units(c);
  }

  /** Text made only of characters below U+10000 is measured and cut character by character. */
  lemma TruncateBasicPlane(text: string, maxLength: int)
    requires forall i :: 0 <= i < |text| ==> (text[i] as int) < 0x1_0000
    ensures |Utf16(text)| == |text|
    ensures text != [] && |text| > maxLength ==> |TruncateText(Str(Utf16(text)), maxLength)| == (if maxLength < 0 then 0 else maxLength) + 3
  {
  }

  /** The `role` argument of `hasRole`: one role or a list. */
  datatype RoleQuery = One(role: string) | AnyOf(roles: seq<string>)

  /** The part of a user record `hasRole` reads; a missing or empty role is falsy. */
  datatype UserRef = UserRef(role: Option<string>)

  function HasRole(user: Option<UserRef>, query: RoleQuery): (b: bool)
    ensures user.None? || user.value.role.None? || user.value.role == Some("") ==> !b
    ensures b ==> user.Some? && user.value.role.Some?
    ensures user.Some? && user.value.role.Some? && user.value.role.value != "" ==>
      (b <==> match query
              case One(r) => user.value.role.value == r
              case AnyOf(rs) => user.value.role.value in rs)
  {
    if user.None? || user.value.role.None? || user.value.role.value == "" then false
    else match query
      case AnyOf(rs) => user.value.role.value in rs
      case One(r) => user.value.role.value == r
  }

  /** A single role asks the same as a one-element list. */
  lemma HasRoleSingleAsList(user: Option<UserRef>, r: string)
    ensures HasRole(user, One(r)) == HasRole(user, AnyOf([r]))
  {
  }

  /** Typed build: display names keyed by unprefixed role names. */
  const DisplayNamesTyped: map<string, string> := map[
    "GOVERNMENT_ADMIN" := "Government Admin",
    "CITY_MANAGER" := "City Manager",
    "SERVICE_PROVIDER_ADMIN" := "Service Provider Admin",
    "SERVICE_PROVIDER_USER" := "Service Provider User"
  ]

  /** Untyped build: the same display names keyed by `ROLE_`-prefixed names. */
  const DisplayNamesUntyped: map<string, string> := map[
    "ROLE_GOVERNMENT_ADMIN" := "Government Admin",
    "ROLE_CITY_MANAGER" := "City Manager",
    "ROLE_SERVICE_PROVIDER_ADMIN" := "Service Provider Admin",
    "ROLE_SERVICE_PROVIDER_USER" := "Service Provider User"
  ]

  /**
   * The names every plain JavaScript object inherits from `Object.prototype`.
   * Each reaches a function or an object, so `roleMap[name]` is truthy for
   * them although the table has no such entry.
   */
  const ObjectPrototypeKeys: set<string> := {
    "constructor", "hasOwnProperty", "isPrototypeOf", "propertyIsEnumerable",
    "toString", "toLocaleString", "valueOf", "__proto__",
    "__defineGetter__", "__defineSetter__", "__lookupGetter__", "__lookupSetter__"
  }

  /** The value of `roleMap[role] || role`: a string, or the member inherited under a prototype name. */
  datatype JsValue = JsStr(s: string) | Inherited(key: string)

  /**
   * `roleMap[role] || role`: an own entry is used when it is non-empty; without
   * one, a prototype name yields the inherited member; otherwise the input.
   */
  function Lookup(table: map<string, string>, role: string): JsValue {
    if role in table then
      (if table[role] != "" then JsStr(table[role]) else JsStr(role))
    else if role in ObjectPrototypeKeys then Inherited(role)
    else JsStr(role)
  }

  function DisplayName(r: Role): string {
    match r
    case GovernmentAdmin => "Government Admin"
    case CityManager => "City Manager"
    case ServiceProviderAdmin => "Service Provider Admin"
    case ServiceProviderUser => "Service Provider User"
  }

  function RoleDisplayName(role: string): (r: JsValue)
    ensures forall x: Role :: role == RoleKey(x) ==> r == JsStr(DisplayName(x))
    ensures role !in DisplayNamesTyped && role !in ObjectPrototypeKeys ==> r == JsStr(role)
    ensures r.Inherited? <==> role in ObjectPrototypeKeys
    ensures r.Inherited? ==> r.key == role
  {
    Lookup(DisplayNamesTyped, role)
  }

  function RoleDisplayNameUntyped(role: string): (r: JsValue)
    ensures forall x: Role :: role == RoleName(x) ==> r == JsStr(DisplayName(x))
    ensures role !in DisplayNamesUntyped && role !in ObjectPrototypeKeys ==> r == JsStr(role)
    ensures r.Inherited? <==> role in ObjectPrototypeKeys
    ensures r.Inherited? ==> r.key == role
  {
    Lookup(DisplayNamesUntyped, role)
  }

  /** Each build recognises only its own spelling: the other spelling comes back unchanged. */
  lemma DisplayNameSpellings(x: Role)
    ensures RoleDisplayName(RoleKey(x)) == JsStr(DisplayName(x))
    ensures RoleDisplayNameUntyped(RoleName(x)) == JsStr(DisplayName(x))
    ensures RoleDisplayName(RoleName(x)) == JsStr(RoleName(x))
    ensures RoleDisplayNameUntyped(RoleKey(x)) == JsStr(RoleKey(x))
  {
  }

  /** Different roles get different display names in both builds. */
  lemma DisplayNamesDistinct(x: Role, y: Role)
    requires x != y
    ensures RoleDisplayName(RoleKey(x)) != RoleDisplayName(RoleKey(y))
    ensures RoleDisplayNameUntyped(RoleName(x)) != RoleDisplayNameUntyped(RoleName(y))
  {
  }

  /** A prototype name is displayed as the inherited member in both builds, not as the name itself. */
  lemma PrototypeNamesInherited()
    ensures RoleDisplayName("toString") == Inherited("toString")
    ensures RoleDisplayNameUntyped("constructor") == Inherited("constructor")
    ensures RoleDisplayName("__proto__") != JsStr("__proto__")
  {
  }

  /** A JavaScript value that is a number, null or undefined. */
  datatype JsNumber = NullNumber | UndefinedNumber | Num(x: real)

  /** `formatNumber`; the locale rendering of a present number is the parameter. */
  function FormatNumber(v: JsNumber, localeString: real -> string): (r: string)
    ensures !v.Num? ==> r == "0"
    ensures v.Num? ==> r == localeString(v.x)
  {
    if v == NullNumber || v == UndefinedNumber then "0" else localeString(v.x)
  }

  /** `formatPercentage`; the one-decimal rendering of a present number is the parameter. */
  function FormatPercentage(v: JsNumber, fixed1: real -> string): (r: string)
    ensures !v.Num? ==> r == "0%"
    ensures v.Num? ==> r == fixed1(v.x) + "%"
  {
    if v == NullNumber || v == UndefinedNumber then "0%" else fixed1(v.x) + "%"
  }

  /** A date argument: null, undefined, a string or a date object (milliseconds since the epoch). */
  datatype JsDate = NullDate | UndefinedDate | DateText(text: string) | DateValue(millis: int)

  predicate FalsyDate(d: JsDate) {
    d == NullDate || d == UndefinedDate || d == DateText("")
  }

  /** `formatDate` and `formatDateTime`: '' for a falsy date, else the locale rendering given as a parameter. */
  function FormatDate(d: JsDate, localeDate: JsDate -> string): (r: string)
    ensures FalsyDate(d) ==> r == ""
    ensures !FalsyDate(d) ==> r == localeDate(d)
  {
    if FalsyDate(d) then "" else localeDate(d)
  }

  /** Zero is a present number: only null and undefined take the default. */
  lemma ZeroIsFormatted(localeString: real -> string, fixed1: real -> string)
    ensures FormatNumber(Num(0.0), localeString) == localeString(0.0)
    ensures FormatPercentage(Num(0.0), fixed1) == fixed1(0.0) + "%"
  {
  }
}
