/** The point-of-sale payment flow: an amount typed on a keypad, an order
    created for it, a QR step that waits for the order to be paid, and a
    success step. */
module Payment {
  import opened Wrappers

  datatype Step = AMOUNT | QR | SUCCESS

  /** The keys of the keypad: the digits and the decimal point. */
  predicate IsKey(c: char)
  {
    '0' <= c <= '9' || c == '.'
  }

  /** The longest amount the keypad accepts keys for. */
  const MAX_AMOUNT_LENGTH: nat := 8

  /** An amount as the keypad can build it from the empty string: keypad
      characters only, at most eight of them, at most one decimal point, and
      no '0' directly followed by a digit at the start. */
  predicate WellFormedAmount(a: string)
  {
    && |a| <= MAX_AMOUNT_LENGTH
    && (forall i :: 0 <= i < |a| ==> IsKey(a[i]))
    && (forall i, j :: 0 <= i < j < |a| ==> !(a[i] == '.' && a[j] == '.'))
    && !(|a| >= 2 && a[0] == '0' && a[1] != '.')
  }

  /** `handleKeyPress` on the amount: a second '.' is ignored, nothing is
      accepted at eight characters, an amount of exactly "0" is replaced by a
      digit, and any other key is appended. */
  function KeyResult(amount: string, key: char): (r: string)
    ensures r == amount || r == [key] || r == amount + [key]
    ensures r != amount ==> |amount| < MAX_AMOUNT_LENGTH
    ensures key == '.' && '.' in amount ==> r == amount
    ensures |amount| >= MAX_AMOUNT_LENGTH ==> r == amount
    ensures !(key == '.' && '.' in amount) && |amount| < MAX_AMOUNT_LENGTH ==>
      r == (if amount == "0" && key != '.' then [key] else amount + [key])
  {
    if key == '.' && '.' in amount then amount
    else if |amount| >= MAX_AMOUNT_LENGTH then amount
    else if amount == "0" && key != '.' then [key]
    else amount + [key]
  }

  /** `handleClear` on the amount: the last character goes; "" stays "". */
  function ClearResult(amount: string): (r: string)
    ensures |amount| > 0 ==> r == amount[..|amount| - 1]
    ensures |amount| == 0 ==> r == ""
  {
    if |amount| == 0 then "" else amount[..|amount| - 1]
  }

  /** Every keypad key keeps an amount well formed. */
  lemma KeyKeepsWellFormed(amount: string, key: char)
    requires WellFormedAmount(amount) && IsKey(key)
    ensures WellFormedAmount(KeyResult(amount, key))
  {
    var r := KeyResult(amount, key);
    if r == amount + [key] && r != amount {
      assert key == '.' ==> '.' !in amount;
      forall i, j | 0 <= i < j < |r| ensures !(r[i] == '.' && r[j] == '.') {
        if j == |amount| && key == '.' {
          assert r[i] == amount[i];
        }
      }
      if |amount| == 1 && amount[0] == '0' {
        assert amount == "0";
      }
    }
  }

  /** Clearing keeps an amount well formed. */
  lemma ClearKeepsWellFormed(amount: string)
    requires WellFormedAmount(amount)
    ensures WellFormedAmount(ClearResult(amount))
  {
    if |amount| > 0 {
      var r := ClearResult(amount);
      assert forall i :: 0 <= i < |r| ==> r[i] == amount[i];
    }
  }

  /** Clearing right after an appended key gives the amount back. */
  lemma ClearUndoesKey(amount: string, key: char)
    requires KeyResult(amount, key) == amount + [key] && amount != "0"
    ensures ClearResult(KeyResult(amount, key)) == amount
  {
    assert (amount + [key])[..|amount|] == amount;
  }

  /** A worked example, not a general property: typing "0", "0" and "5" gives
      "5"; typing "1", ".", "." and "5" gives "1.5". */
  lemma KeypadScenario()
    ensures KeyResult(KeyResult(KeyResult("", '0'), '0'), '5') == "5"
    ensures KeyResult(KeyResult(KeyResult(KeyResult("", '1'), '.'), '.'), '5') == "1.5"
  {
    assert KeyResult("", '0') == "0";
    assert KeyResult("", '1') == "1";
    assert KeyResult("1", '.') == "1.";
    assert '.' in "1.";
  }

  /** The `initialAmount` prop: its value and its rendering as text. */
  datatype InitialAmount = InitialAmount(value: real, text: string)

  class PaymentFlow {
    var step: Step
    var amount: string
    var currentOrderId: Option<string>
    const initialAmount: Option<InitialAmount>
    const hasOnBack: bool
    const hasOnComplete: bool

    /** A non-zero initial amount starts at QR with that amount; otherwise the
        flow starts at AMOUNT with an empty amount. */
    constructor (initialAmount: Option<InitialAmount>, hasOnBack: bool, hasOnComplete: bool)
      ensures this.initialAmount == initialAmount && this.hasOnBack == hasOnBack && this.hasOnComplete == hasOnComplete
      ensures currentOrderId == None
      ensures initialAmount.Some? && initialAmount.value.value != 0.0 ==> step == QR && amount == initialAmount.value.text
      ensures initialAmount.None? || initialAmount.value.value == 0.0 ==> step == AMOUNT && amount == ""
    {
      this.initialAmount := initialAmount;
      this.hasOnBack := hasOnBack;
      this.hasOnComplete := hasOnComplete;
      if initialAmount.Some? && initialAmount.value.value != 0.0 {
        step := QR;
        amount := initialAmount.value.text;
      } else {
        step := AMOUNT;
        amount := "";
      }
      currentOrderId := None;
    }

    method HandleKeyPress(key: char)
      modifies this
      ensures amount == KeyResult(old(amount), key)
      ensures step == old(step) && currentOrderId == old(currentOrderId)
    {
      if key == '.' && '.' in amount {
        return;
      }
      if |amount| >= MAX_AMOUNT_LENGTH {
        return;
      }
      if amount == "0" && key != '.' {
        amount := [key];
        return;
      }
      amount := amount + [key];
    }

    method HandleClear()
      modifies this
      ensures amount == ClearResult(old(amount))
      ensures step == old(step) && currentOrderId == old(currentOrderId)
    {
      if |amount| > 0 {
        amount := amount[..|amount| - 1];
      }
    }

    /** `handleSubmitAmount`: once the order is created its id is kept and the
        QR step shown; a failed creation changes nothing. */
    method HandleSubmitAmount(created: Option<string>)
      modifies this
      ensures created.Some? ==> currentOrderId == created && step == QR && amount == old(amount)
      ensures created.None? ==> currentOrderId == old(currentOrderId) && step == old(step) && amount == old(amount)
    {
      if created.Some? {
        currentOrderId := created;
        step := QR;
      }
    }

    /** The automatic order for a non-zero initial amount, made at the QR step
        while no order exists: its id is kept, or on failure `onBack` is called
        when given. Returns whether `onBack` was called. */
    method AutoCreateOrder(created: Option<string>) returns (backCalled: bool)
      modifies this
      ensures step == old(step) && amount == old(amount)
      ensures var applies := initialAmount.Some? && initialAmount.value.value != 0.0 && old(step) == QR && old(currentOrderId).None?;
        && (applies && created.Some? ==> currentOrderId == created && !backCalled)
        && (applies && created.None? ==> currentOrderId == old(currentOrderId) && backCalled == hasOnBack)
        && (!applies ==> currentOrderId == old(currentOrderId) && !backCalled)
    {
      backCalled := false;
      if initialAmount.Some? && initialAmount.value.value != 0.0 && step == QR && currentOrderId.None? {
        if created.Some? {
          currentOrderId := created;
        } else if hasOnBack {
          backCalled := true;
        }
      }
    }

    /** A polled order status of PAID moves the flow to SUCCESS. */
    method OnOrderStatus(status: string)
      modifies this
      ensures status == "PAID" ==> step == SUCCESS
      ensures status != "PAID" ==> step == old(step)
      ensures amount == old(amount) && currentOrderId == old(currentOrderId)
    {
      if status == "PAID" {
        step := SUCCESS;
      }
    }

    /** `handleCancel`: `onBack` when given; otherwise back to AMOUNT with no order. */
    method HandleCancel() returns (backCalled: bool)
      modifies this
      ensures backCalled == hasOnBack
      ensures hasOnBack ==> step == old(step) && currentOrderId == old(currentOrderId)
      ensures !hasOnBack ==> step == AMOUNT && currentOrderId == None
      ensures amount == old(amount)
    {
      if hasOnBack {
        return true;
      }
      step := AMOUNT;
      currentOrderId := None;
      backCalled := false;
    }

    /** `handleReset`: `onComplete` when given; otherwise back to AMOUNT with
        an empty amount and no order. */
    method HandleReset() returns (completeCalled: bool)
      modifies this
      ensures completeCalled == hasOnComplete
      ensures hasOnComplete ==> step == old(step) && amount == old(amount) && currentOrderId == old(currentOrderId)
      ensures !hasOnComplete ==> step == AMOUNT && amount == "" && currentOrderId == None
    {
      if hasOnComplete {
        return true;
      }
      step := AMOUNT;
      amount := "";
      currentOrderId := None;
      completeCalled := false;
    }
  }
}
