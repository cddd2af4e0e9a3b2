/** The parental-control keypad: a PIN of at most four characters entered one
    digit at a time, checked against the kids PIN when it reaches four, with a
    500 ms timeout that clears it after a mismatch. */
module PinModal {
  import opened Common

  const PinLength := 4
  /** Delay of the reset after a mismatch. */
  const ResetMs: nat := 500

  /** The ten keypad digits: the only values `handleKeyPress` receives. */
  type DigitKey = d: int | 0 <= d < 10

  predicate AllDigits(s: string) {
    forall i :: 0 <= i < |s| ==> IsDigit(s[i])
  }

  /** The keypad's state: `pin`, `error`, and the reset timeouts not yet fired. */
  datatype Pad = Pad(pin: string, error: bool, resetsPending: nat)

  const Initial := Pad("", false, 0)

  /** The keypad's invariant: the entry is at most four digits. */
  predicate PadValid(p: Pad) {
    |p.pin| <= PinLength && AllDigits(p.pin)
  }

  /** The outcome of one key press: the new state and whether `onSuccess` was called. */
  datatype Pressed = Pressed(after: Pad, success: bool)

  /** `handleKeyPress(num)`: ignored once the entry is full; otherwise the digit
      is appended, and reaching four characters either calls `onSuccess` (a
      match) or sets the error and schedules the reset (a mismatch). */
  function KeyPress(p: Pad, kidsPin: string, d: DigitKey): (r: Pressed)
    ensures PadValid(p) ==> PadValid(r.after)
    ensures |p.pin| >= PinLength ==> r == Pressed(p, false)
    ensures |p.pin| < PinLength ==> r.after.pin == p.pin + [DigitChar(d)]
    ensures r.success <==> |p.pin| == PinLength - 1 && p.pin + [DigitChar(d)] == kidsPin
    ensures r.after.error <==> p.error || (|p.pin| == PinLength - 1 && p.pin + [DigitChar(d)] != kidsPin)
    ensures r.after.resetsPending ==
              p.resetsPending + (if |p.pin| == PinLength - 1 && p.pin + [DigitChar(d)] != kidsPin then 1 else 0)
  {
    if |p.pin| < PinLength then
      var entered := p.pin + [DigitChar(d)];
      if |entered| == PinLength then
        if entered == kidsPin then Pressed(Pad(entered, p.error, p.resetsPending), true)
        else Pressed(Pad(entered, true, p.resetsPending + 1), false)
      else Pressed(Pad(entered, p.error, p.resetsPending), false)
    else Pressed(p, false)
  }

  /** `handleDelete`: drop the last character; an empty entry stays empty.
      The error flag is left alone. */
  function Delete(p: Pad): (r: Pad)
    ensures PadValid(p) ==> PadValid(r)
    ensures p.pin == [] ==> r == p
    ensures p.pin != [] ==> r.pin + [p.pin[|p.pin| - 1]] == p.pin
    ensures r.error == p.error && r.resetsPending == p.resetsPending
  {
    Pad(if p.pin == [] then [] else p.pin[..|p.pin| - 1], p.error, p.resetsPending)
  }

  /** One scheduled reset fires: the entry empties and the error clears. */
  function ResetFires(p: Pad): (r: Pad)
    requires p.resetsPending > 0
    ensures PadValid(r) && r.pin == [] && !r.error && r.resetsPending == p.resetsPending - 1
  {
    Pad("", false, p.resetsPending - 1)
  }

  /** The text a digit key contributes. */
  function KeysText(keys: seq<DigitKey>): (s: string)
    ensures |s| == |keys| && AllDigits(s)
    ensures forall i :: 0 <= i < |keys| ==> s[i] == DigitChar(keys[i])
  {
    if keys == [] then [] else KeysText(keys[..|keys| - 1]) + [DigitChar(keys[|keys| - 1])]
  }

  /** Pressing `keys` one after the other: the final state and the number of
      `onSuccess` calls. */
  function PressAll(p: Pad, kidsPin: string, keys: seq<DigitKey>): (Pad, nat) {
    if keys == [] then (p, 0)
    else
      var (q, n) := PressAll(p, kidsPin, keys[..|keys| - 1]);
      var r := KeyPress(q, kidsPin, keys[|keys| - 1]);
      (r.after, n + if r.success then 1 else 0)
  }

  /** From an empty keypad, at most four key presses: the entry is exactly
      what was typed, `onSuccess` is called once iff four keys spelling the
      kids PIN were pressed, and the error is set iff four keys spelling
      anything else were. */
  lemma {:induction false} TypingUpToFour(kidsPin: string, keys: seq<DigitKey>)
    requires |keys| <= PinLength
    ensures var (q, n) := PressAll(Initial, kidsPin, keys);
            var typed := KeysText(keys);
            && q.pin == typed
            && n == (if |keys| == PinLength && typed == kidsPin then 1 else 0)
            && q.error == (|keys| == PinLength && typed != kidsPin)
            && q.resetsPending == (if q.error then 1 else 0)
  {
    if keys != [] {
      var init := keys[..|keys| - 1];
      TypingUpToFour(kidsPin, init);
      assert KeysText(keys) == KeysText(init) + [DigitChar(keys[|keys| - 1])];
    }
  }

  /** Once four keys have been pressed, every further key press is ignored
      until the entry shrinks (by delete or by the reset). */
  lemma {:induction false} FullEntryIgnoresKeys(p: Pad, kidsPin: string, keys: seq<DigitKey>)
    requires |p.pin| == PinLength
    ensures PressAll(p, kidsPin, keys) == (p, 0)
  {
    if keys != [] {
      FullEntryIgnoresKeys(p, kidsPin, keys[..|keys| - 1]);
    }
  }

  /** The error does not lock the keypad: deleting while the reset is pending
      lets a new last digit through, and a correct one calls `onSuccess` with
      the error flag still raised. */
  lemma DeleteDuringErrorReopensEntry()
    ensures var wrong := KeyPress(Pad("123", false, 0), "1234", 5).after;
            var fixed := KeyPress(Delete(wrong), "1234", 4);
            wrong.error && fixed.success && fixed.after.error && fixed.after.resetsPending == 1
  {
  }

  /** The keypad's state (a fresh one each time the modal opens). */
  class PinPad {
    var pad: Pad
    const kidsPin: string
    /** Number of `onSuccess` calls. */
    var successes: nat

    ghost predicate Valid()
      reads this
    {
      PadValid(pad)
    }

    constructor (kidsPin0: string)
      ensures Valid() && pad == Initial && kidsPin == kidsPin0 && successes == 0
    {
      pad := Initial;
      kidsPin := kidsPin0;
      successes := 0;
    }

    method PressDigit(d: DigitKey) returns (success: bool)
      requires Valid()
      modifies this`pad, this`successes
      ensures Valid()
      ensures Pressed(pad, success) == KeyPress(old(pad), kidsPin, d)
      ensures successes == old(successes) + (if success then 1 else 0)
    {
      var r := KeyPress(pad, kidsPin, d);
      pad := r.after;
      success := r.success;
      if success {
        successes := successes + 1;
      }
    }

    method PressDelete()
      requires Valid()
      modifies this`pad
      ensures Valid()
      ensures pad == Delete(old(pad))
    {
      pad := Delete(pad);
    }

    /** A pending reset timeout fires; with none pending nothing happens. */
    method OnResetTimeout()
      requires Valid()
      modifies this`pad
      ensures Valid()
      ensures old(pad).resetsPending == 0 ==> pad == old(pad)
      ensures old(pad).resetsPending > 0 ==> pad == ResetFires(old(pad))
    {
      if pad.resetsPending > 0 {
        pad := ResetFires(pad);
      }
    }
  }
}
