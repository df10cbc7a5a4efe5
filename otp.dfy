/**
 * The one-time-code input of psiagram/components/verifyCode.tsx: a row of
 * `length` boxes, each holding "" or one ASCII digit. The rules for paste,
 * single-digit entry and backspace are pure step functions over the slot
 * sequence; the component itself is the class OtpInput, whose methods update
 * its `digits` field as the source's state setter does and return the box that
 * receives focus.
 */
module Otp {
  import opened Wrappers
  import opened Decimal

  /** Number of boxes when the caller gives no `length`. */
  const DefaultLength: nat := 6

  const BackspaceKey: string := "Backspace"

  /** A box holds nothing or exactly one ASCII digit. */
  predicate IsSlot(s: string) { s == "" || (|s| == 1 && IsDigit(s[0])) }

  predicate AllSlots(slots: seq<string>) {
    forall i :: 0 <= i < |slots| ==> IsSlot(slots[i])
  }

  /** The component's invariant: `length` boxes, each a slot. */
  predicate ValidSlots(slots: seq<string>, length: nat) {
    |slots| == length && AllSlots(slots)
  }

  predicate NoDigit(s: string) {
    forall i :: 0 <= i < |s| ==> !IsDigit(s[i])
  }

  predicate AllFilled(slots: seq<string>) {
    forall i :: 0 <= i < |slots| ==> slots[i] != ""
  }

  /** `s.replace(/\D/g, "")`: the ASCII digits of `s`, in order. */
  function DigitsOnly(s: string): (r: string)
    ensures |r| <= |s|
    ensures forall i :: 0 <= i < |r| ==> IsDigit(r[i])
    ensures r == [] <==> NoDigit(s)
  {
    if s == [] then []
    else
      var init, c := s[..|s| - 1], s[|s| - 1];
      assert s == init + [c];
      DigitsOnly(init) + (if IsDigit(c) then [c] else [])
  }

  lemma {:induction false} DigitsOnlyConcat(a: string, b: string)
    ensures DigitsOnly(a + b) == DigitsOnly(a) + DigitsOnly(b)
    decreases |b|
  {
    if b != [] {
      var init := b[..|b| - 1];
      assert (a + b)[..|a + b| - 1] == a + init;
      DigitsOnlyConcat(a, init);
    } else {
      assert a + b == a;
    }
  }

  /** Stripping non-digits twice is the same as stripping them once. */
  lemma {:induction false} DigitsOnlyIdempotent(s: string)
    ensures DigitsOnly(DigitsOnly(s)) == DigitsOnly(s)
    decreases |s|
  {
    if s != [] {
      var init, c := s[..|s| - 1], s[|s| - 1];
      DigitsOnlyIdempotent(init);
      DigitsOnlyConcat(DigitsOnly(init), if IsDigit(c) then [c] else []);
    }
  }

  /** The last character of DigitsOnly(s) is the last digit occurring in s. */
  lemma {:induction false} LastOfDigitsOnly(s: string)
    requires !NoDigit(s)
    ensures var d := DigitsOnly(s);
      exists k :: 0 <= k < |s| && IsDigit(s[k]) && s[k] == d[|d| - 1] && NoDigit(s[k + 1..])
    decreases |s|
  {
    var init, c := s[..|s| - 1], s[|s| - 1];
    var d := DigitsOnly(s);
    assert s == init + [c];
    if IsDigit(c) {
      assert d == DigitsOnly(init) + [c];
      assert NoDigit(s[|s|..]);
      assert s[|s| - 1] == d[|d| - 1];
    } else {
      assert d == DigitsOnly(init);
      assert !NoDigit(init) by {
        var j :| 0 <= j < |s| && IsDigit(s[j]);
        assert j < |s| - 1 && init[j] == s[j];
      }
      LastOfDigitsOnly(init);
      var k :| 0 <= k < |init| && IsDigit(init[k]) && init[k] == DigitsOnly(init)[|DigitsOnly(init)| - 1]
               && NoDigit(init[k + 1..]);
      assert s[k + 1..] == init[k + 1..] + [c];
      assert NoDigit(s[k + 1..]);
      assert s[k] == init[k] == d[|d| - 1];
    }
  }

  /** The box contents `value.replace(/\D/g, "").slice(-1)`: the last digit typed, or "". */
  function LastDigit(value: string): (slot: string)
    ensures IsSlot(slot)
    ensures slot == "" <==> NoDigit(value)
    ensures slot != "" ==>
      exists k :: 0 <= k < |value| && slot == [value[k]] && NoDigit(value[k + 1..])
  {
    var d := DigitsOnly(value);
    if d == [] then "" else LastOfDigitsOnly(value); [d[|d| - 1]]
  }

  /** `text.replace(/\D/g, "").slice(0, length)`: the first `length` digits of the text. */
  function Kept(text: string, length: nat): (r: string)
    ensures |r| == if |DigitsOnly(text)| < length then |DigitsOnly(text)| else length
    ensures r == DigitsOnly(text)[..|r|]
  {
    var d := DigitsOnly(text);
    if |d| <= length then d else d[..length]
  }

  function Min(a: int, b: int): int { if a <= b then a else b }

  /** `digits.join("")`. */
  function Join(slots: seq<string>): string {
    if slots == [] then "" else slots[0] + Join(slots[1..])
  }

  /** `Array(length).fill("")`. */
  function EmptySlots(length: nat): seq<string> {
    seq(length, _ => "")
  }

  /** The fresh array the paste loop fills: box i gets the i-th kept digit. */
  function Filled(length: nat, cleaned: string): seq<string>
    requires |cleaned| <= length
  {
    seq(length, i requires 0 <= i < length => if i < |cleaned| then [cleaned[i]] else "")
  }

  /** The boxes after a change and the box that then receives focus, if any. */
  datatype Step = Step(slots: seq<string>, focus: Option<nat>)

  /**
   * `setAllDigitsFromPaste`: None when no digit survives (it returns false and
   * changes nothing); otherwise the kept digits fill the boxes from the first,
   * the rest are emptied, and focus goes to the first empty box or, when every
   * box is filled, to the last one.
   */
  function PasteStep(length: nat, text: string): (r: Option<Step>)
    ensures r.None? <==> NoDigit(text) || length == 0
    ensures r.Some? ==> ValidSlots(r.value.slots, length)
    ensures r.Some? ==> Join(r.value.slots) == Kept(text, length)
    ensures r.Some? ==> forall i :: 0 <= i < length ==>
      r.value.slots[i] == if i < |Kept(text, length)| then [Kept(text, length)[i]] else ""
    ensures r.Some? ==> r.value.focus == Some(Min(|Kept(text, length)|, length - 1))
    ensures r.Some? ==> r.value.focus.Some? && r.value.focus.value < length
    ensures r.Some? ==> var f := r.value.focus.value;
      if |Kept(text, length)| < length
      then r.value.slots[f] == "" && forall i :: 0 <= i < f ==> r.value.slots[i] != ""
      else f == length - 1 && AllFilled(r.value.slots)
  {
    var cleaned := Kept(text, length);
    if cleaned == [] then None
    else
      JoinFilled(length, cleaned);
      Some(Step(Filled(length, cleaned), Some(Min(|cleaned|, length - 1))))
  }

  /** True when `setDigit` hands `value` to the paste path and that path accepts it. */
  predicate PasteApplies(length: nat, value: string) {
    |value| > 1 && PasteStep(length, value).Some?
  }

  /**
   * `setDigit(index, value)`: text longer than one character that holds a
   * digit is a paste, whichever box received it; any other value sets box
   * `index` to its last digit ("" when it has none), leaving every other box
   * alone, and moves focus on only when a digit was written into a box that
   * is not the last.
   */
  function SetDigitStep(slots: seq<string>, index: nat, value: string): (r: Step)
    requires index < |slots|
    ensures |r.slots| == |slots|
    ensures AllSlots(slots) ==> AllSlots(r.slots)
    ensures r.focus.Some? ==> r.focus.value < |slots|
    ensures PasteApplies(|slots|, value) ==>
      Join(r.slots) == Kept(value, |slots|) &&
      r.focus == Some(Min(|Kept(value, |slots|)|, |slots| - 1)) &&
      forall i :: 0 <= i < |slots| ==>
        r.slots[i] == if i < |Kept(value, |slots|)| then [Kept(value, |slots|)[i]] else ""
    ensures !PasteApplies(|slots|, value) ==>
      r.slots[index] == LastDigit(value) &&
      (forall i :: 0 <= i < |slots| && i != index ==> r.slots[i] == slots[i]) &&
      r.focus == if LastDigit(value) != "" && index < |slots| - 1 then Some(index + 1) else None
  {
    if PasteApplies(|slots|, value) then PasteStep(|slots|, value).value
    else
      var cleaned := LastDigit(value);
      Step(slots[index := cleaned], if cleaned != "" && index < |slots| - 1 then Some(index + 1) else None)
  }

  /**
   * `handleKeyPress(index, key)`: Backspace on a filled box empties it;
   * Backspace on an empty box other than the first empties the box before it
   * and focuses that box; nothing else changes the boxes.
   */
  function KeyPressStep(slots: seq<string>, index: nat, key: string): (r: Step)
    requires index < |slots|
    ensures |r.slots| == |slots|
    ensures AllSlots(slots) ==> AllSlots(r.slots)
    ensures r.focus.Some? ==> r.focus.value < |slots|
    ensures key != BackspaceKey ==> r.slots == slots && r.focus == None
    ensures key == BackspaceKey && slots[index] != "" ==>
      r.slots == slots[index := ""] && r.focus == None
    ensures key == BackspaceKey && slots[index] == "" && index > 0 ==>
      r.slots == slots[index - 1 := ""] && r.focus == Some(index - 1)
    ensures key == BackspaceKey && slots[index] == "" && index == 0 ==>
      r.slots == slots && r.focus == None
  {
    if key == BackspaceKey then
      if slots[index] != "" then Step(slots[index := ""], None)
      else if index > 0 then Step(slots[index - 1 := ""], Some(index - 1))
      else Step(slots, None)
    else Step(slots, None)
  }

  /** What the change effect reports: `onChangeCode(code)` always, `onComplete(code)` sometimes. */
  datatype Effect = Effect(changed: string, completed: Option<string>)

  /**
   * The effect run after every change of the boxes: it reports the code to
   * `onChangeCode`, and to `onComplete` exactly when every box is filled.
   */
  function Effects(slots: seq<string>, length: nat): (e: Effect)
    requires ValidSlots(slots, length)
    ensures e.changed == Join(slots)
    ensures e.completed.Some? <==> AllFilled(slots)
    ensures e.completed.Some? ==> e.completed.value == e.changed && |e.changed| == length
  {
    var code := Join(slots);
    FullIffCodeLength(slots);
    if |code| == length && AllFilled(slots) then Effect(code, Some(code)) else Effect(code, None)
  }

  /** Joining boxes that hold at most one character each: the code is as long as the row exactly when every box is filled. */
  lemma {:induction false} FullIffCodeLength(slots: seq<string>)
    requires AllSlots(slots)
    ensures |Join(slots)| <= |slots|
    ensures |Join(slots)| == |slots| <==> AllFilled(slots)
  {
    if slots != [] {
      assert AllSlots(slots[1..]) by {
        forall i | 0 <= i < |slots[1..]| ensures IsSlot(slots[1..][i]) {
          assert slots[1..][i] == slots[i + 1];
        }
      }
      FullIffCodeLength(slots[1..]);
      if AllFilled(slots[1..]) && slots[0] != "" {
        forall i | 0 <= i < |slots| ensures slots[i] != "" {
          if i > 0 { assert slots[i] == slots[1..][i - 1]; }
        }
      }
      if AllFilled(slots) {
        forall i | 0 <= i < |slots[1..]| ensures slots[1..][i] != "" {
          assert slots[1..][i] == slots[i + 1];
        }
      }
    }
  }

  /** The code of a freshly pasted row is exactly the kept digits. */
  lemma {:induction false} JoinFilled(length: nat, cleaned: string)
    requires |cleaned| <= length
    ensures Join(Filled(length, cleaned)) == cleaned
    decreases length
  {
    if length > 0 {
      var f := Filled(length, cleaned);
      var rest := if cleaned == [] then [] else cleaned[1..];
      assert f[1..] == Filled(length - 1, rest);
      JoinFilled(length - 1, rest);
      if cleaned != [] {
        assert cleaned == [cleaned[0]] + rest;
      }
    }
  }

  /** Pasting at least `length` digits completes the row with the first `length` of them. */
  lemma PasteEnoughCompletes(length: nat, text: string)
    requires 0 < length <= |DigitsOnly(text)|
    ensures PasteStep(length, text).Some?
    ensures var slots := PasteStep(length, text).value.slots;
      Effects(slots, length) == Effect(DigitsOnly(text)[..length], Some(DigitsOnly(text)[..length]))
  {
  }

  /**
   * Typing one digit into box `index` and pressing Backspace there leaves the
   * row as it was, except that box `index` is empty.
   */
  lemma TypeThenBackspace(slots: seq<string>, index: nat, d: char)
    requires index < |slots| && IsDigit(d)
    ensures var typed := SetDigitStep(slots, index, [d]);
      typed.slots[index] == [d] &&
      KeyPressStep(typed.slots, index, BackspaceKey).slots == slots[index := ""]
  {
    assert !NoDigit([d]);
    var typed := SetDigitStep(slots, index, [d]);
    assert typed.slots == slots[index := [d]];
  }

  /**
   * Text with no digit never takes the paste path: the receiving box is
   * emptied and focus stays put, whatever the text's length.
   */
  lemma NoDigitClearsTarget(slots: seq<string>, index: nat, value: string)
    requires index < |slots| && NoDigit(value)
    ensures SetDigitStep(slots, index, value) == Step(slots[index := ""], None)
  {
  }

  /**
   * A second digit typed into a filled box makes its text two characters
   * long, which the paste path takes: the row is refilled from the first box
   * with those two digits and everything else is emptied.
   */
  lemma TypingOverFilledBoxRepastes()
    ensures SetDigitStep(["1", "2", "3", "", "", ""], 2, "34").slots == ["3", "4", "", "", "", ""]
  {
    assert DigitsOnly("3") == "3" by { assert "3"[..0] == ""; }
    assert DigitsOnly("34") == "34" by { assert "34"[..1] == "3"; }
    assert Kept("34", 6) == "34";
    assert PasteApplies(6, "34");
    var f := Filled(6, "34");
    assert f == ["3", "4", "", "", "", ""] by {
      assert f[0] == "3" && f[1] == "4";
      assert f[2] == "" && f[3] == "" && f[4] == "" && f[5] == "";
    }
  }

  /** The component. `length` is fixed for its lifetime; `digits` is its state. */
  class OtpInput {
    const length: nat
    var digits: seq<string>

    ghost predicate Valid()
      reads this
    {
      ValidSlots(digits, length)
    }

    /** The initial state: `length` empty boxes. */
    constructor (length: nat)
      ensures Valid() && this.length == length
      ensures digits == EmptySlots(length) && Join(digits) == ""
    {
      this.length := length;
      digits := EmptySlots(length);
      new;
      JoinFilled(length, "");
      assert Filled(length, "") == EmptySlots(length);
    }

    /** The component used without a `length` prop: six empty boxes. */
    constructor Default()
      ensures Valid() && length == DefaultLength
      ensures digits == EmptySlots(DefaultLength) && Join(digits) == ""
    {
      length := DefaultLength;
      digits := EmptySlots(DefaultLength);
      new;
      JoinFilled(DefaultLength, "");
      assert Filled(DefaultLength, "") == EmptySlots(DefaultLength);
    }

    /** `code`: the boxes joined; never longer than the row. */
    function Code(): (code: string)
      reads this
      requires Valid()
      ensures |code| <= length
      ensures |code| == length <==> AllFilled(digits)
    {
      FullIffCodeLength(digits);
      Join(digits)
    }

    method SetAllDigitsFromPaste(text: string) returns (pasted: bool, focus: Option<nat>)
      requires Valid()
      modifies this
      ensures Valid()
      ensures pasted == PasteStep(length, text).Some?
      ensures pasted ==> digits == PasteStep(length, text).value.slots
      ensures pasted ==> focus == PasteStep(length, text).value.focus
      ensures !pasted ==> digits == old(digits) && focus == None
    {
      var cleaned := Kept(text, length);
      if cleaned == [] {
        return false, None;
      }
      var next := new string[length](_ => "");
      for i := 0 to |cleaned|
        invariant forall j :: 0 <= j < i ==> next[j] == [cleaned[j]]
        invariant forall j :: i <= j < length ==> next[j] == ""
      {
        next[i] := [cleaned[i]];
      }
      digits := next[..];
      assert digits == Filled(length, cleaned);
      focus := Some(Min(|cleaned|, length - 1));
      pasted := true;
    }

    method SetDigit(index: nat, value: string) returns (focus: Option<nat>)
      requires Valid() && index < length
      modifies this
      ensures Valid()
      ensures digits == SetDigitStep(old(digits), index, value).slots
      ensures focus == SetDigitStep(old(digits), index, value).focus
    {
      if |value| > 1 {
        var pasted, f := SetAllDigitsFromPaste(value);
        if pasted {
          return f;
        }
      }
      var cleaned := LastDigit(value);
      var next := digits;
      next := next[index := cleaned];
      digits := next;
      focus := if cleaned != "" && index < length - 1 then Some(index + 1) else None;
    }

    method HandleKeyPress(index: nat, key: string) returns (focus: Option<nat>)
      requires Valid() && index < length
      modifies this
      ensures Valid()
      ensures digits == KeyPressStep(old(digits), index, key).slots
      ensures focus == KeyPressStep(old(digits), index, key).focus
    {
      focus := None;
      if key == BackspaceKey {
        if digits[index] != "" {
          var next := digits;
          next := next[index := ""];
          digits := next;
        } else if index > 0 {
          focus := Some(index - 1);
          var next := digits;
          next := next[index - 1 := ""];
          digits := next;
        }
      }
    }

    /** What the change effect reports for the current boxes. */
    function Emitted(): (e: Effect)
      reads this
      requires Valid()
      ensures e.changed == Code()
      ensures e.completed.Some? <==> AllFilled(digits)
    {
      Effects(digits, length)
    }
  }
}
