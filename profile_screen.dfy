/** The profile screen's parental settings: the kids-mode switch and the
    PIN-change form, whose new-PIN check is JavaScript's numeric conversion
    `Number(s)` rather than a digits-only test. */
module ProfileScreen {
  import opened Common
  import PinModal

  const WrongCurrentMessage := "PIN atual incorreto"
  const BadNewMessage := "O novo PIN deve ter 4 dígitos"

  // ---------------------------------------------------------------------------
  // isNaN(Number(s)): the StringToNumber grammar of ECMAScript
  // ---------------------------------------------------------------------------

  predicate AllDigits(s: string) {
    forall i :: 0 <= i < |s| ==> IsDigit(s[i])
  }

  predicate IsSign(c: char) { c == '+' || c == '-' }

  /** Digits with an optional sign, as after the exponent letter. */
  predicate SignedDigits(s: string) {
    (|s| > 0 && AllDigits(s)) || (|s| > 1 && IsSign(s[0]) && AllDigits(s[1..]))
  }

  /** `m` is digits, a point at `p`, and digits. */
  predicate PointSplit(m: string, p: int) {
    0 <= p < |m| && m[p] == '.' && AllDigits(m[..p]) && AllDigits(m[p + 1..])
  }

  /** `123`, `12.`, `1.5` or `.5`: digits with at most one point and at least one digit. */
  predicate IsMantissa(m: string) {
    (|m| > 0 && AllDigits(m)) || (|m| > 1 && exists p | 0 <= p < |m| :: PointSplit(m, p))
  }

  predicate IsExponentMark(c: char) { c == 'e' || c == 'E' }

  /** `s` is a mantissa, the exponent letter at `e`, and signed digits. */
  predicate ExponentSplit(s: string, e: int) {
    0 < e < |s| && IsExponentMark(s[e]) && IsMantissa(s[..e]) && SignedDigits(s[e + 1..])
  }

  /** StrUnsignedDecimalLiteral: `Infinity`, a mantissa, or a mantissa with an exponent. */
  predicate IsUnsignedDecimal(s: string) {
    s == "Infinity" || IsMantissa(s) || exists e | 0 < e < |s| :: ExponentSplit(s, e)
  }

  predicate IsDecimalLiteral(s: string) {
    IsUnsignedDecimal(s) || (|s| > 0 && IsSign(s[0]) && IsUnsignedDecimal(s[1..]))
  }

  predicate IsHexDigit(c: char) { IsDigit(c) || ('a' <= c <= 'f') || ('A' <= c <= 'F') }

  /** `0x..`, `0b..` or `0o..` literals (no sign allowed). */
  predicate IsNonDecimalLiteral(s: string) {
    |s| > 2 && s[0] == '0'
    && (   ((s[1] == 'x' || s[1] == 'X') && forall i :: 2 <= i < |s| ==> IsHexDigit(s[i]))
        || ((s[1] == 'b' || s[1] == 'B') && forall i :: 2 <= i < |s| ==> s[i] == '0' || s[i] == '1')
        || ((s[1] == 'o' || s[1] == 'O') && forall i :: 2 <= i < |s| ==> '0' <= s[i] <= '7'))
  }

  /** `isNaN(Number(s))`: after trimming, an empty string is 0 and anything but a
      numeric literal is NaN. */
  predicate NumberIsNaN(s: string) {
    var t := Trim(s);
    t != "" && !IsDecimalLiteral(t) && !IsNonDecimalLiteral(t)
  }

  /** The new-PIN check: exactly four characters that convert to a number. */
  predicate NewPinAcceptable(s: string) {
    |s| == 4 && !NumberIsNaN(s)
  }

  /** A string without white space is its own trimmed form. */
  lemma TrimWithoutSpace(s: string)
    requires forall i :: 0 <= i < |s| ==> !IsSpace(s[i])
    ensures Trim(s) == s
  {
    if s != [] {
      assert !IsSpace(s[|s| - 1]) && !IsSpace(s[0]);
    }
    assert TrimEnd(s) == s;
    assert TrimStart(s) == s;
  }

  /** Visible ASCII characters are never white space. */
  predicate VisibleAscii(s: string) {
    forall i :: 0 <= i < |s| ==> '!' <= s[i] <= '~'
  }

  /** A four-character literal without white space is accepted. */
  lemma LiteralAccepted(s: string)
    requires |s| == 4 && VisibleAscii(s)
    requires IsDecimalLiteral(s) || IsNonDecimalLiteral(s)
    ensures NewPinAcceptable(s)
  {
    TrimWithoutSpace(s);
  }

  /** A non-empty string without white space that is no literal is rejected. */
  lemma NonLiteralRejected(s: string)
    requires |s| > 0 && VisibleAscii(s)
    requires !IsDecimalLiteral(s) && !IsNonDecimalLiteral(s)
    ensures !NewPinAcceptable(s)
  {
    TrimWithoutSpace(s);
  }

  /** Four digits are always accepted. */
  lemma FourDigitsAccepted(s: string)
    requires |s| == 4 && AllDigits(s)
    ensures NewPinAcceptable(s)
  {
    assert IsMantissa(s);
    LiteralAccepted(s);
  }

  /** The check is not a digits-only test: an exponent passes. */
  lemma ExponentAccepted()
    ensures NewPinAcceptable("1e10")
  {
    var s := "1e10";
    assert IsDecimalLiteral(s) by {
      assert s[..1] == "1" && s[2..] == "10";
      assert IsMantissa(s[..1]) && SignedDigits(s[2..]);
      assert ExponentSplit(s, 1);
    }
    LiteralAccepted(s);
  }

  /** A fraction passes. */
  lemma FractionAccepted()
    ensures NewPinAcceptable("1.25")
  {
    var s := "1.25";
    assert IsDecimalLiteral(s) by {
      assert s[..1] == "1" && s[2..] == "25";
      assert AllDigits(s[..1]) && AllDigits(s[2..]);
      assert PointSplit(s, 1);
    }
    LiteralAccepted(s);
  }

  /** A sign passes. */
  lemma SignAccepted()
    ensures NewPinAcceptable("-123")
  {
    var s := "-123";
    assert IsDecimalLiteral(s) by {
      assert s[1..] == "123";
      assert IsMantissa(s[1..]);
    }
    LiteralAccepted(s);
  }

  /** A hexadecimal literal passes. */
  lemma HexAccepted()
    ensures NewPinAcceptable("0x1F")
  {
    var s := "0x1F";
    assert IsNonDecimalLiteral(s);
    LiteralAccepted(s);
  }

  /** A four-character string whose trimmed form is a decimal literal is accepted. */
  lemma AcceptedByTrimmedLiteral(s: string)
    requires |s| == 4 && IsDecimalLiteral(Trim(s))
    ensures NewPinAcceptable(s)
  {
  }

  /** A string whose only white space is a trailing space trims to the rest. */
  lemma TrimEndOneSpace(s: string)
    requires |s| > 0 && s[|s| - 1] == ' ' && (|s| == 1 || !IsSpace(s[|s| - 2]))
    ensures TrimEnd(s) == s[..|s| - 1]
  {
  }

  /** A string whose only leading white space is one space trims to the rest. */
  lemma TrimStartOneSpace(s: string)
    requires |s| > 0 && s[0] == ' ' && (|s| == 1 || !IsSpace(s[1]))
    ensures TrimStart(s) == s[1..]
  {
  }

  lemma TrimPadded()
    ensures Trim(" 12 ") == "12"
  {
    var padded := " 12 ";
    TrimEndOneSpace(padded);
    var left := padded[..3];
    TrimStartOneSpace(left);
    assert left[1..] == "12";
  }

  /** Surrounding white space is trimmed away. */
  lemma PaddingAccepted()
    ensures NewPinAcceptable(" 12 ")
  {
    TrimPadded();
    assert IsMantissa("12");
    AcceptedByTrimmedLiteral(" 12 ");
  }

  /** White space alone converts to 0. */
  lemma BlankAccepted()
    ensures NewPinAcceptable("    ")
  {
    TrimEmptyIffAllSpace("    ");
  }

  /** `12a4` has no point and no exponent letter, and is not all digits. */
  lemma LetterIsNoDecimal(s: string)
    requires s == "12a4"
    ensures !IsDecimalLiteral(s)
  {
    assert !IsDigit(s[2]) && !IsSign(s[0]);
    assert forall p | 0 <= p < |s| :: s[p] != '.';
    assert forall e | 0 < e < |s| :: !IsExponentMark(s[e]);
  }

  /** A letter outside a literal fails. */
  lemma LetterRejected()
    ensures !NewPinAcceptable("12a4")
  {
    var s := "12a4";
    LetterIsNoDecimal(s);
    NonLiteralRejected(s);
  }

  /** A new PIN the form accepts is not always one the keypad can enter: its
      keys produce digits only, so after changing the PIN to `1e10` no key
      sequence unlocks kids mode. */
  lemma AcceptedPinMayBeUnenterable(keys: seq<PinModal.DigitKey>)
    ensures NewPinAcceptable("1e10")
    ensures PinModal.KeysText(keys) != "1e10"
  {
    ExponentAccepted();
    var t := PinModal.KeysText(keys);
    if |t| == 4 {
      assert IsDigit(t[1]) && !IsDigit("1e10"[1]);
    }
  }

  // ---------------------------------------------------------------------------
  // handleUpdatePin and toggleKidsMode
  // ---------------------------------------------------------------------------

  /** The three outcomes of `handleUpdatePin`. */
  datatype PinUpdate = WrongCurrent | BadNew | Accepted(newPin: string)

  /** The checks of `handleUpdatePin`, the current PIN first. */
  function CheckPinUpdate(current: string, newPin: string, kidsPin: string): (r: PinUpdate)
    ensures r == WrongCurrent <==> current != kidsPin
    ensures r == BadNew <==> current == kidsPin && !NewPinAcceptable(newPin)
    ensures r.Accepted? <==> current == kidsPin && NewPinAcceptable(newPin)
    ensures r.Accepted? ==> r.newPin == newPin && |newPin| == 4
  {
    if current != kidsPin then WrongCurrent
    else if !NewPinAcceptable(newPin) then BadNew
    else Accepted(newPin)
  }

  /** The message `pinError` shows for an outcome (empty after success). */
  function ErrorMessage(r: PinUpdate): (msg: string)
    ensures msg == "" <==> r.Accepted?
  {
    match r
    case WrongCurrent => WrongCurrentMessage
    case BadNew => BadNewMessage
    case Accepted(_) => ""
  }

  /** A wrong current PIN is reported even when the new PIN is also invalid. */
  lemma CurrentCheckedFirst(current: string, newPin: string, kidsPin: string)
    requires current != kidsPin
    ensures ErrorMessage(CheckPinUpdate(current, newPin, kidsPin)) == WrongCurrentMessage
  {
  }

  /** What the kids-mode switch does. */
  datatype KidsToggle = RequestExit | EnableKids

  /** `toggleKidsMode`: when on, only the PIN request; when off, turn it on.
      It never turns kids mode off. */
  function ToggleKidsMode(isKidsMode: bool): (t: KidsToggle)
    ensures t == RequestExit <==> isKidsMode
    ensures t == EnableKids <==> !isKidsMode
  {
    if isKidsMode then RequestExit else EnableKids
  }

  /** The bottom button: the switch in kids mode, a page reload otherwise. */
  datatype BottomAction = Toggle(t: KidsToggle) | Reload

  function BottomButton(isKidsMode: bool): (a: BottomAction)
    ensures isKidsMode ==> a == Toggle(RequestExit)
    ensures !isKidsMode ==> a == Reload
  {
    if isKidsMode then Toggle(ToggleKidsMode(isKidsMode)) else Reload
  }

  /** The PIN editor's state. */
  class PinForm {
    var isEditingPin: bool
    var current: string
    var newPin: string
    var pinError: string

    constructor ()
      ensures !isEditingPin && current == "" && newPin == "" && pinError == ""
    {
      isEditingPin := false;
      current := "";
      newPin := "";
      pinError := "";
    }

    /** The edit button flips the editor open or closed. */
    method ToggleEditor()
      modifies this`isEditingPin
      ensures isEditingPin == !old(isEditingPin)
    {
      isEditingPin := !isEditingPin;
    }

    /** `handleUpdatePin`: returns the value handed to `updateKidsPin`, if any.
        A rejection sets the message and keeps the form; success closes the
        editor and clears both fields. */
    method HandleUpdatePin(kidsPin: string) returns (update: Option<string>)
      modifies this
      ensures var r := CheckPinUpdate(old(current), old(newPin), kidsPin);
              && pinError == ErrorMessage(r)
              && (r.Accepted? ==> update == Some(r.newPin) && !isEditingPin && current == "" && newPin == "")
              && (!r.Accepted? ==> update == None && isEditingPin == old(isEditingPin)
                                   && current == old(current) && newPin == old(newPin))
    {
      pinError := "";
      var r := CheckPinUpdate(current, newPin, kidsPin);
      if !r.Accepted? {
        pinError := ErrorMessage(r);
        return None;
      }
      update := Some(r.newPin);
      isEditingPin := false;
      current := "";
      newPin := "";
    }
  }
}
