/**
 Number orders (lib/billing.js): their statuses, and the purchase loop that closes one.
 */
module NumberOrders {
  datatype OrderStatus = PENDING | PENDING_PAYMENT | PAID | FULFILLED | PARTIAL | FAILED | CANCELLED

  predicate Processed(s: OrderStatus) {
    s == FULFILLED || s == PARTIAL
  }

  /** The statuses `claimOrderForFulfillment` accepts; PAID, which it writes, is one of them. */
  predicate Claimable(s: OrderStatus) {
    s == PENDING || s == PAID || s == PENDING_PAYMENT
  }

  /** The statuses `fulfillNumberOrder` writes. */
  predicate Closing(s: OrderStatus) {
    s == FULFILLED || s == PARTIAL || s == FAILED
  }

  type Number = nat

  /** The numbers for which the purchase came out as `ok`, in order. */
  function Chosen(numbers: seq<Number>, bought: seq<bool>, ok: bool): seq<Number>
    requires |bought| == |numbers|
  {
    if numbers == [] then []
    else
      var n := |numbers| - 1;
      Chosen(numbers[..n], bought[..n], ok) + if bought[n] == ok then [numbers[n]] else []
  }

  /** No number is lost between the two lists. */
  lemma {:induction false} ChosenSplits(numbers: seq<Number>, bought: seq<bool>)
    requires |bought| == |numbers|
    ensures multiset(Chosen(numbers, bought, true)) + multiset(Chosen(numbers, bought, false)) == multiset(numbers)
  {
    if numbers != [] {
      var n := |numbers| - 1;
      ChosenSplits(numbers[..n], bought[..n]);
      assert numbers == numbers[..n] + [numbers[n]];
    }
  }

  /** An empty list means that no purchase came out so. */
  lemma {:induction false} ChosenEmpty(numbers: seq<Number>, bought: seq<bool>, ok: bool)
    requires |bought| == |numbers|
    ensures Chosen(numbers, bought, ok) == [] <==> forall i :: 0 <= i < |numbers| ==> bought[i] != ok
  {
    if numbers != [] {
      ChosenEmpty(numbers[..|numbers| - 1], bought[..|numbers| - 1], ok);
    }
  }

  /** The status that the two lists of the loop lead to. */
  function ClosingStatus(purchased: seq<Number>, failed: seq<Number>): OrderStatus {
    if failed == [] then FULFILLED else if purchased != [] then PARTIAL else FAILED
  }

  /** An order is fulfilled when all of its purchases went through, and failed when none of them did. */
  lemma ClosingStatusMeans(numbers: seq<Number>, bought: seq<bool>)
    requires |bought| == |numbers|
    ensures var status := ClosingStatus(Chosen(numbers, bought, true), Chosen(numbers, bought, false));
            && (status == FULFILLED <==> forall i :: 0 <= i < |numbers| ==> bought[i])
            && (status == FAILED <==> numbers != [] && forall i :: 0 <= i < |numbers| ==> !bought[i])
            && (status == PARTIAL <==> (exists i :: 0 <= i < |numbers| && bought[i]) && exists i :: 0 <= i < |numbers| && !bought[i])
            && status in {FULFILLED, PARTIAL, FAILED} && Closing(status)
  {
    ChosenEmpty(numbers, bought, true);
    ChosenEmpty(numbers, bought, false);
    if numbers != [] {
      assert bought[0] || !bought[0];
    }
  }

  lemma ChosenNext(numbers: seq<Number>, bought: seq<bool>, i: nat, ok: bool)
    requires |bought| == |numbers| && i < |numbers|
    ensures Chosen(numbers[..i + 1], bought[..i + 1], ok)
            == Chosen(numbers[..i], bought[..i], ok) + if bought[i] == ok then [numbers[i]] else []
  {
    assert numbers[..i + 1][..i] == numbers[..i] && bought[..i + 1][..i] == bought[..i];
  }

  /**
   `fulfillNumberOrder`: try each number once, and close the order by what went through; the two
   lists together hold each number as often as it was ordered.
   */
  method FulfillNumberOrder(numbers: seq<Number>, bought: seq<bool>)
    returns (purchased: seq<Number>, failed: seq<Number>, status: OrderStatus)
    requires |bought| == |numbers|
    ensures purchased == Chosen(numbers, bought, true) && failed == Chosen(numbers, bought, false)
    ensures multiset(purchased) + multiset(failed) == multiset(numbers)
    ensures status == ClosingStatus(purchased, failed)
  {
    purchased, failed := [], [];
    var i := 0;
    while i < |numbers|
      invariant 0 <= i <= |numbers|
      invariant purchased == Chosen(numbers[..i], bought[..i], true)
      invariant failed == Chosen(numbers[..i], bought[..i], false)
    {
      ChosenNext(numbers, bought, i, true);
      ChosenNext(numbers, bought, i, false);
      if bought[i] {
        purchased := purchased + [numbers[i]];
      } else {
        failed := failed + [numbers[i]];
      }
      i := i + 1;
    }
    assert numbers[..i] == numbers && bought[..i] == bought;
    ChosenSplits(numbers, bought);
    status := if failed == [] then FULFILLED else if purchased != [] then PARTIAL else FAILED;
  }
}
