/** The four-box one-time-code entry of the login screen in App.tsx
    (`handleOtpChange`). */
module Otp {
  import opened Types

  const SlotCount: nat := 4

  predicate IsDigit(c: char)
  {
    '0' <= c <= '9'
  }

  /** `/^\d+$/.test(v)`: one or more ASCII digits and nothing else. */
  predicate AllDigits(v: string)
    ensures |v| == 1 ==> (AllDigits(v) <==> IsDigit(v[0]))
  {
    |v| > 0 && forall i :: 0 <= i < |v| ==> IsDigit(v[i])
  }

  /** The values the handler lets into a box: empty (a deletion) or digits. */
  predicate Admissible(v: string)
  {
    v == "" || AllDigits(v)
  }

  /** `every(digit => digit !== '')`. */
  predicate AllFilled(slots: seq<string>)
    ensures (forall i :: 0 <= i < |slots| ==> AllDigits(slots[i])) ==> AllFilled(slots)
  {
    forall i :: 0 <= i < |slots| ==> slots[i] != ""
  }

  /** `join('')`. */
  function Join(slots: seq<string>): (code: string)
    ensures |slots| > 0 ==> slots[0] <= code
    ensures forall i :: 0 <= i < |slots| ==> |slots[i]| <= |code|
    ensures AllFilled(slots) ==> |code| >= |slots|
    ensures (forall i :: 0 <= i < |slots| ==> slots[i] == "") ==> code == ""
  {
    if slots == [] then "" else slots[0] + Join(slots[1..])
  }

  /** Boxes that each hold digits join into a code of digits at least as
      long as the number of boxes. */
  lemma {:induction false} JoinAllDigits(slots: seq<string>)
    requires |slots| > 0
    requires forall i :: 0 <= i < |slots| ==> AllDigits(slots[i])
    ensures AllDigits(Join(slots))
    ensures |Join(slots)| >= |slots|
  {
    if |slots| > 1 {
      JoinAllDigits(slots[1..]);
      var rest := Join(slots[1..]);
      assert Join(slots) == slots[0] + rest;
      forall i | 0 <= i < |Join(slots)|
        ensures IsDigit(Join(slots)[i])
      {
        if i >= |slots[0]| {
          assert Join(slots)[i] == rest[i - |slots[0]|];
        }
      }
    } else {
      assert Join(slots) == slots[0] + Join([]);
    }
  }

  class OtpEntry {
    /** React state `otp`, one string per box. */
    var otp: seq<string>

    /** Four boxes, each empty or digits. */
    ghost predicate Valid()
      reads this
    {
      |otp| == SlotCount && forall i :: 0 <= i < |otp| ==> Admissible(otp[i])
    }

    constructor ()
      ensures Valid() && otp == ["", "", "", ""]
    {
      otp := ["", "", "", ""];
    }

    /** A change in box `index`. A non-empty value that is not all digits is
        ignored. Otherwise only that box takes the value; a digit moves the
        focus to the next box; and a digit typed into the last box while
        every box is filled submits the joined code. */
    method HandleOtpChange(index: nat, value: string) returns (focus: Option<nat>, submitted: Option<string>)
      requires Valid() && index < SlotCount
      modifies this
      ensures Valid()
      ensures !Admissible(value) ==> otp == old(otp) && focus == None && submitted == None
      ensures Admissible(value) ==> otp == old(otp)[index := value]
      ensures focus == if AllDigits(value) && index < SlotCount - 1 then Some(index + 1) else None
      ensures submitted.Some? <==> AllDigits(value) && index == SlotCount - 1 && AllFilled(otp)
      ensures submitted.Some? ==> submitted.value == Join(otp)
      ensures submitted.Some? ==> AllDigits(submitted.value) && |submitted.value| >= SlotCount
    {
      focus, submitted := None, None;
      if value != "" && !AllDigits(value) {
        return;
      }
      var newOtp := otp[index := value];
      otp := newOtp;
      if value != "" && index < SlotCount - 1 {
        focus := Some(index + 1);
      }
      if AllFilled(newOtp) && index == SlotCount - 1 && value != "" {
        JoinAllDigits(newOtp);
        submitted := Some(Join(newOtp));
      }
    }
  }
}
