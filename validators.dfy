/** The three input validators of uni.py, over strings of characters.

    The private key is matched against the pattern ^0x[0-9a-fA-F]{64}$ with
    Python's `re.match`; the chat id with `str.isdigit`; the account count with
    the built-in `int()` constructor followed by a positivity test. */
module Validators {
  import opened Wrappers

  /** Why an input was refused (each is a ValueError in the source). */
  datatype InputError = InvalidPrivateKey | InvalidChatId | InvalidAccountCount

  // ---------------------------------------------------------------------------
  // Character classes

  predicate IsDigit(c: char) { '0' <= c <= '9' }

  predicate IsHexDigit(c: char) { '0' <= c <= '9' || 'a' <= c <= 'f' || 'A' <= c <= 'F' }

  /** The characters Python's `str.isspace` accepts, which `str.strip()` and `int()` remove. */
  predicate IsSpace(c: char) {
    c == ' ' || '\t' <= c <= '\r' || '\U{1C}' <= c <= '\U{1F}' || c == '\U{85}' || c == '\U{A0}'
    || c == '\U{1680}' || '\U{2000}' <= c <= '\U{200A}' || c == '\U{2028}' || c == '\U{2029}'
    || c == '\U{202F}' || c == '\U{205F}' || c == '\U{3000}'
  }

  function DigitValue(c: char): nat
    requires IsDigit(c)
  {
    c as int - '0' as int
  }

  /** The whitespace `int()` skips around a number: ASCII space, tab, newline,
      vertical tab, form feed and carriage return, and every non-ASCII
      character `str.isspace` accepts. The separators U+001C to U+001F, which
      `str.strip()` removes, are not among them. */
  predicate IsIntSpace(c: char) {
    IsSpace(c) && !('\U{1C}' <= c <= '\U{1F}')
  }

  // ---------------------------------------------------------------------------
  // Trimming: str.strip(), and the trimming int() does

  function StripLeft(space: char -> bool, s: string): string {
    if s != [] && space(s[0]) then StripLeft(space, s[1..]) else s
  }

  function StripRight(space: char -> bool, s: string): string {
    if s != [] && space(s[|s| - 1]) then StripRight(space, s[..|s| - 1]) else s
  }

  /** `r` is `s[a..b]`, and everything `s` holds outside it is in `space`. */
  predicate TrimmedTo(space: char -> bool, s: string, r: string, a: nat, b: nat) {
    a <= b <= |s| && r == s[a..b]
    && (forall i :: 0 <= i < a ==> space(s[i]))
    && (forall i :: b <= i < |s| ==> space(s[i]))
  }

  /** The input with its leading and trailing characters of class `space`
      removed and nothing else; the result neither starts nor ends with one. */
  function Trim(space: char -> bool, s: string): (r: string)
    ensures exists a, b :: TrimmedTo(space, s, r, a, b)
    ensures r == [] || (!space(r[0]) && !space(r[|r| - 1]))
  {
    var left := StripLeft(space, s);
    TrimWitness(space, s);
    StripLeftEnds(space, s);
    StripRightEnds(space, left);
    StripRight(space, left)
  }

  /** The positions where trimming cuts `s`. */
  lemma TrimWitness(space: char -> bool, s: string)
    ensures |StripLeft(space, s)| <= |s|
    ensures var left := StripLeft(space, s);
      TrimmedTo(space, s, StripRight(space, left), |s| - |left|, |s| - |left| + |StripRight(space, left)|)
  {
    StripLeftEnds(space, s);
    var left := StripLeft(space, s);
    StripRightEnds(space, left);
    var a := |s| - |left|;
    var b := a + |StripRight(space, left)|;
    assert forall i :: b <= i < |s| ==> s[i] == left[i - a];
  }

  /** `s.strip()`. */
  function Strip(s: string): string {
    Trim(IsSpace, s)
  }

  /** StripLeft drops a prefix of `space`, and what it keeps does not start with one. */
  lemma {:induction false} StripLeftEnds(space: char -> bool, s: string)
    ensures StripLeft(space, s) == [] || !space(StripLeft(space, s)[0])
    ensures |StripLeft(space, s)| <= |s| && StripLeft(space, s) == s[|s| - |StripLeft(space, s)|..]
    ensures forall i :: 0 <= i < |s| - |StripLeft(space, s)| ==> space(s[i])
  {
    if s != [] && space(s[0]) {
      StripLeftEnds(space, s[1..]);
      assert forall i :: 1 <= i < |s| - |StripLeft(space, s)| ==> s[i] == s[1..][i - 1];
    }
  }

  /** StripRight drops a suffix of `space`, and what it keeps does not end with one. */
  lemma {:induction false} StripRightEnds(space: char -> bool, s: string)
    requires s == [] || !space(s[0])
    ensures StripRight(space, s) == []
            || (!space(StripRight(space, s)[0]) && !space(StripRight(space, s)[|StripRight(space, s)| - 1]))
    ensures |StripRight(space, s)| <= |s| && StripRight(space, s) == s[..|StripRight(space, s)|]
    ensures forall i :: |StripRight(space, s)| <= i < |s| ==> space(s[i])
  {
    if s != [] && space(s[|s| - 1]) {
      StripRightEnds(space, s[..|s| - 1]);
      assert s[..|s| - 1][..|StripRight(space, s)|] == s[..|StripRight(space, s)|];
    }
  }

  /** A string that neither starts nor ends with a character of `space` is left alone. */
  lemma TrimUnchanged(space: char -> bool, s: string)
    requires s == [] || (!space(s[0]) && !space(s[|s| - 1]))
    ensures Trim(space, s) == s
  {
  }

  /** What `str.strip()` leaves is left alone by the trimming `int()` does, so
      the script's own call, on a stripped input, sees no difference between the two. */
  lemma StrippedIntTrimUnchanged(raw: string)
    ensures Trim(IsIntSpace, Strip(raw)) == Strip(raw)
  {
    TrimUnchanged(IsIntSpace, Strip(raw));
  }

  // ---------------------------------------------------------------------------
  // validate_private_key

  /** The shape of a key: "0x" and exactly 64 hexadecimal digits. */
  predicate IsKeyShape(s: string) {
    |s| == 66 && s[0] == '0' && s[1] == 'x' && forall i :: 2 <= i < 66 ==> IsHexDigit(s[i])
  }

  /** Length of the longest prefix of `s` made of hexadecimal digits, as the
      regular-expression engine consumes `[0-9a-fA-F]` one character at a time. */
  function HexRun(s: string): (n: nat)
    ensures n <= |s|
    ensures forall i :: 0 <= i < n ==> IsHexDigit(s[i])
    ensures n < |s| ==> !IsHexDigit(s[n])
  {
    if s != [] && IsHexDigit(s[0]) then 1 + HexRun(s[1..]) else 0
  }

  /** Python's `$`: the end of the string, or just before a final newline. */
  predicate AtEnd(s: string, k: nat) {
    |s| == k || (|s| == k + 1 && s[k] == '\n')
  }

  /** `re.match(r'^0x[0-9a-fA-F]{64}$', s)` succeeds. */
  predicate MatchesKeyPattern(s: string) {
    |s| >= 2 && s[0] == '0' && s[1] == 'x' && HexRun(s[2..]) >= 64 && AtEnd(s, 66)
  }

  /** validate_private_key: accepts exactly the key shape, or the key shape
      followed by one newline (which Python's `$` lets through). */
  function ValidatePrivateKey(s: string): (r: Result<string, InputError>)
    ensures r.Ok? <==> IsKeyShape(s) || (|s| == 67 && IsKeyShape(s[..66]) && s[66] == '\n')
    ensures r.Ok? ==> r.value == s
    ensures r.Err? ==> r.error == InvalidPrivateKey
  {
    if MatchesKeyPattern(s) then Ok(s) else Err(InvalidPrivateKey)
  }

  /** The caller strips the typed key first, so the trailing-newline case never
      arises: a stripped input is accepted exactly when it has the key shape. */
  lemma StrippedKeyAccepted(raw: string)
    ensures ValidatePrivateKey(Strip(raw)).Ok? <==> IsKeyShape(Strip(raw))
  {
  }

  // ---------------------------------------------------------------------------
  // validate_chat_id

  /** `s.isdigit()`: non-empty and every character a digit. */
  function IsDigitString(s: string): (b: bool)
    ensures b <==> |s| > 0 && forall i :: 0 <= i < |s| ==> IsDigit(s[i])
  {
    |s| > 0 && IsDigit(s[0]) && (|s| == 1 || IsDigitString(s[1..]))
  }

  /** validate_chat_id: the empty string and all-digit strings come back unchanged;
      a non-empty string with any non-digit is refused. */
  function ValidateChatId(s: string): (r: Result<string, InputError>)
    ensures r.Ok? <==> forall i :: 0 <= i < |s| ==> IsDigit(s[i])
    ensures r.Ok? ==> r.value == s
    ensures r.Err? ==> r.error == InvalidChatId
  {
    if s != [] && !IsDigitString(s) then Err(InvalidChatId) else Ok(s)
  }

  // ---------------------------------------------------------------------------
  // validate_num_accounts, through int()

  /** Reads the digits of a decimal literal left to right, as `int()` does:
      digits, with single underscores allowed only between two digits.
      `afterDigit` says whether the previous character was a digit. */
  function ScanDigits(s: string, acc: nat, afterDigit: bool): (r: Option<nat>)
    ensures r.Some? ==> (s == [] ==> afterDigit) && (s != [] ==> IsDigit(s[|s| - 1]))
    ensures r.Some? ==> forall i :: 0 <= i < |s| ==> IsDigit(s[i]) || s[i] == '_'
    ensures r.Some? && s != [] && s[0] == '_' ==> afterDigit
    ensures r.Some? ==> forall i :: 0 <= i < |s| - 1 && s[i] == '_' ==> IsDigit(s[i + 1])
  {
    if s == [] then (if afterDigit then Some(acc) else None)
    else if IsDigit(s[0]) then ScanDigits(s[1..], acc * 10 + DigitValue(s[0]), true)
    else if s[0] == '_' && afterDigit then ScanDigits(s[1..], acc, false)
    else None
  }

  /** Digits, or underscores each followed by a digit. */
  predicate Grouped(s: string) {
    (forall i :: 0 <= i < |s| ==> IsDigit(s[i]) || s[i] == '_')
    && (forall i :: 0 <= i < |s| && s[i] == '_' ==> i + 1 < |s| && IsDigit(s[i + 1]))
  }

  /** Groups of digits joined by single underscores: "7", "007", "1_000". */
  predicate DigitGroups(t: string) {
    t != [] && IsDigit(t[0]) && Grouped(t)
  }

  /** What `int()` accepts once the surrounding whitespace is gone: digit groups,
      optionally after one sign. */
  predicate IntLiteral(t: string) {
    DigitGroups(t) || (|t| >= 2 && (t[0] == '+' || t[0] == '-') && DigitGroups(t[1..]))
  }

  /** The digits of `s`, its underscores dropped. */
  function Ungrouped(s: string): (d: string)
    ensures (forall i :: 0 <= i < |s| ==> IsDigit(s[i]) || s[i] == '_') ==>
      forall i :: 0 <= i < |d| ==> IsDigit(d[i])
  {
    if s == [] then []
    else (if s[0] == '_' then [] else [s[0]]) + Ungrouped(s[1..])
  }

  /** The value of a literal: its sign applied to the number its digits spell. */
  function LiteralValue(t: string): int
    requires IntLiteral(t)
  {
    if DigitGroups(t) then Horner(Ungrouped(t), 0)
    else if t[0] == '-' then 0 - Horner(Ungrouped(t[1..]), 0)
    else Horner(Ungrouped(t[1..]), 0)
  }

  lemma GroupedTail(s: string)
    requires s != []
    ensures Grouped(s) <==>
      (IsDigit(s[0]) || (s[0] == '_' && |s| >= 2 && IsDigit(s[1]))) && Grouped(s[1..])
  {
    if Grouped(s[1..]) && (IsDigit(s[0]) || (s[0] == '_' && |s| >= 2 && IsDigit(s[1]))) {
      forall i | 0 <= i < |s| && s[i] == '_'
        ensures i + 1 < |s| && IsDigit(s[i + 1])
      {
        if i > 0 { assert s[1..][i - 1] == s[i]; }
      }
    }
  }

  /** The scan succeeds exactly on digit groups (an underscore may open them
      only right after a digit), and yields the number their digits spell. */
  lemma {:induction false} ScanAccepts(s: string, acc: nat, afterDigit: bool)
    ensures ScanDigits(s, acc, afterDigit).Some? <==>
      if s == [] then afterDigit else (IsDigit(s[0]) || afterDigit) && Grouped(s)
    ensures ScanDigits(s, acc, afterDigit).Some? ==>
      ScanDigits(s, acc, afterDigit).value == Horner(Ungrouped(s), acc)
  {
    if s != [] {
      GroupedTail(s);
      if IsDigit(s[0]) {
        ScanAccepts(s[1..], acc * 10 + DigitValue(s[0]), true);
        assert Ungrouped(s) == [s[0]] + Ungrouped(s[1..]);
        assert ([s[0]] + Ungrouped(s[1..]))[1..] == Ungrouped(s[1..]);
      } else if s[0] == '_' && afterDigit {
        ScanAccepts(s[1..], acc, false);
        assert Ungrouped(s) == Ungrouped(s[1..]);
      }
    }
  }

  /** `int(s)` in base 10: a number exactly when the input, trimmed of the
      whitespace `int()` skips, is an optional sign and then digit groups,
      with the value they spell. */
  function ParseInt(s: string): (r: Option<int>)
    ensures r.Some? <==> IntLiteral(Trim(IsIntSpace, s))
    ensures r.Some? ==> r.value == LiteralValue(Trim(IsIntSpace, s))
    ensures r.Some? ==> var t := Trim(IsIntSpace, s);
      |t| >= 1 && IsDigit(t[|t| - 1])
      && (IsDigit(t[0]) || (|t| >= 2 && (t[0] == '+' || t[0] == '-') && IsDigit(t[1])))
      && (forall i :: 1 <= i < |t| ==> IsDigit(t[i]) || t[i] == '_')
      && (forall i :: 0 <= i < |t| - 1 && t[i] == '_' ==> IsDigit(t[i + 1]))
    ensures r.Some? && r.value < 0 ==> Trim(IsIntSpace, s)[0] == '-'
  {
    var t := Trim(IsIntSpace, s);
    ScanAccepts(t, 0, false);
    if t != [] && (t[0] == '+' || t[0] == '-') then
      ScanAccepts(t[1..], 0, false);
      match ScanDigits(t[1..], 0, false)
      case None => None
      case Some(n) => Some(if t[0] == '-' then 0 - (n as int) else n as int)
    else
      match ScanDigits(t, 0, false)
      case None => None
      case Some(n) => Some(n)
  }

  /** validate_num_accounts: a count only when `int()` accepts the input and the
      number is positive; zero, negatives and non-numbers are one error. */
  function ValidateNumAccounts(s: string): (r: Result<nat, InputError>)
    ensures r.Ok? <==> ParseInt(s).Some? && ParseInt(s).value > 0
    ensures r.Ok? ==> r.value > 0 && ParseInt(s) == Some(r.value as int)
    ensures r.Err? ==> r.error == InvalidAccountCount
  {
    match ParseInt(s)
    case None => Err(InvalidAccountCount)
    case Some(n) => if n <= 0 then Err(InvalidAccountCount) else Ok(n)
  }

  // ---------------------------------------------------------------------------
  // Decimal rendering, the partner of ParseInt

  function DigitChar(d: nat): (c: char)
    requires d < 10
    ensures IsDigit(c) && DigitValue(c) == d
  {
    ('0' as int + d) as char
  }

  /** The usual decimal rendering of a natural number, without sign or underscores. */
  function Decimal(n: nat): (s: string)
    ensures |s| > 0 && forall i :: 0 <= i < |s| ==> IsDigit(s[i])
  {
    if n < 10 then [DigitChar(n)] else Decimal(n / 10) + [DigitChar(n % 10)]
  }

  /** Horner evaluation of a digit string, starting from `acc`. */
  function Horner(s: string, acc: nat): nat
    requires forall i :: 0 <= i < |s| ==> IsDigit(s[i])
  {
    if s == [] then acc else Horner(s[1..], acc * 10 + DigitValue(s[0]))
  }

  lemma {:induction false} HornerSnoc(s: string, c: char, acc: nat)
    requires forall i :: 0 <= i < |s| ==> IsDigit(s[i])
    requires IsDigit(c)
    ensures Horner(s + [c], acc) == Horner(s, acc) * 10 + DigitValue(c)
  {
    if s != [] {
      assert (s + [c])[1..] == s[1..] + [c];
      HornerSnoc(s[1..], c, acc * 10 + DigitValue(s[0]));
    }
  }

  lemma {:induction false} HornerDecimal(n: nat)
    ensures Horner(Decimal(n), 0) == n
  {
    if n >= 10 {
      HornerDecimal(n / 10);
      HornerSnoc(Decimal(n / 10), DigitChar(n % 10), 0);
    }
  }

  lemma {:induction false} ScanAllDigits(s: string, acc: nat, afterDigit: bool)
    requires forall i :: 0 <= i < |s| ==> IsDigit(s[i])
    requires s != [] || afterDigit
    ensures ScanDigits(s, acc, afterDigit) == Some(Horner(s, acc))
  {
    if s != [] {
      ScanAllDigits(s[1..], acc * 10 + DigitValue(s[0]), true);
    }
  }

  /** `int()` reads back every decimal rendering. */
  lemma ParseDecimal(n: nat)
    ensures ParseInt(Decimal(n)) == Some(n as int)
  {
    var s := Decimal(n);
    TrimUnchanged(IsIntSpace, s);
    ScanAllDigits(s, 0, false);
    HornerDecimal(n);
  }

  /** Every positive count, typed in decimal, is accepted and returned as itself. */
  lemma PositiveCountAccepted(n: nat)
    requires n > 0
    ensures ValidateNumAccounts(Decimal(n)) == Ok(n)
  {
    ParseDecimal(n);
  }

  /** A minus sign in front of any decimal number (so zero and every negative) is refused. */
  lemma SignedNonPositiveRejected(n: nat)
    ensures ValidateNumAccounts("-" + Decimal(n)) == Err(InvalidAccountCount)
  {
    var s := "-" + Decimal(n);
    assert s[|s| - 1] == Decimal(n)[|Decimal(n)| - 1];
    TrimUnchanged(IsIntSpace, s);
    assert s[1..] == Decimal(n);
    ScanAllDigits(Decimal(n), 0, false);
  }

  /** `int()` does not skip the separator U+001C, although `str.strip()` would
      remove it: a count behind one is refused. */
  lemma SeparatorBeforeCountRejected()
    ensures ValidateNumAccounts("\U{1C}5") == Err(InvalidAccountCount)
  {
    assert !IsIntSpace('\U{1C}');
    TrimUnchanged(IsIntSpace, "\U{1C}5");
  }

  /** Zero is refused. */
  lemma ZeroRejected()
    ensures ValidateNumAccounts("0") == Err(InvalidAccountCount)
  {
    assert Decimal(0) == "0";
    ParseDecimal(0);
  }
}
