/**
 * The event-list validator of `WC_SGTM_Webhook_Admin` (admin/class-wc-sgtm-webhook-admin.php):
 * the submitted list of events to monitor is reduced to the entries that name one of the six
 * available events.
 */
module Admin {
  import opened Wrappers
  import opened Php

  /** `get_available_events()`: the six event keys and their labels. */
  const AvailableEvents: map<string, string> := map[
    "new_order" := "Novo Pedido",
    "order_status_changed" := "Mudança de Status do Pedido",
    "payment_complete" := "Pagamento Concluído",
    "add_to_cart" := "Adicionar ao Carrinho",
    "remove_from_cart" := "Remover do Carrinho",
    "checkout_update" := "Atualização do Checkout"]

  /** `array_key_exists($event, $valid_events)`: only a string equal to one of the keys matches. */
  predicate IsEventKey(v: Value) {
    v.Str? && v.s in AvailableEvents
  }

  /** The submitted entries that name an available event, in their order, repeats kept. */
  function ValidEvents(xs: seq<Value>): seq<Value> {
    if xs == [] then []
    else ValidEvents(xs[..|xs| - 1]) + (if IsEventKey(xs[|xs| - 1]) then [xs[|xs| - 1]] else [])
  }

  /** Only available events survive, each as often as it was submitted; anything else is dropped. */
  lemma {:induction false} ValidEventsCount(xs: seq<Value>, v: Value)
    ensures multiset(ValidEvents(xs))[v] == if IsEventKey(v) then multiset(xs)[v] else 0
  {
    if xs != [] {
      var front := xs[..|xs| - 1];
      ValidEventsCount(front, v);
      assert xs == front + [xs[|xs| - 1]];
    }
  }

  /** Every entry of the result is an available event key. */
  lemma {:induction false} ValidEventsAreKeys(xs: seq<Value>)
    ensures forall k :: 0 <= k < |ValidEvents(xs)| ==> IsEventKey(ValidEvents(xs)[k])
    ensures |ValidEvents(xs)| <= |xs|
  {
    if xs != [] {
      ValidEventsAreKeys(xs[..|xs| - 1]);
    }
  }

  /** The filter keeps order: the entries of a concatenation are those of each part, in turn. */
  lemma {:induction false} ValidEventsAppend(a: seq<Value>, b: seq<Value>)
    ensures ValidEvents(a + b) == ValidEvents(a) + ValidEvents(b)
  {
    if b != [] {
      var front := b[..|b| - 1];
      ValidEventsAppend(a, front);
      assert (a + b)[..|a + b| - 1] == a + front;
    } else {
      assert a + b == a;
    }
  }

  /** A list of available events passes unchanged. */
  lemma {:induction false} ValidEventsKeepsValid(xs: seq<Value>)
    requires forall k :: 0 <= k < |xs| ==> IsEventKey(xs[k])
    ensures ValidEvents(xs) == xs
  {
    if xs != [] {
      var front := xs[..|xs| - 1];
      ValidEventsKeepsValid(front);
      assert xs == front + [xs[|xs| - 1]];
    }
  }

  /** Sanitising twice is sanitising once. */
  lemma ValidEventsIdempotent(xs: seq<Value>)
    ensures ValidEvents(ValidEvents(xs)) == ValidEvents(xs)
  {
    ValidEventsAreKeys(xs);
    ValidEventsKeepsValid(ValidEvents(xs));
  }

  /** The submitted value: an array with its values in order, or anything else (None). */
  type Submitted = Option<seq<Value>>

  /** `sanitize_events($input)`: the valid entries of an array, and nothing from a non-array. */
  method SanitizeEvents(input: Submitted) returns (sanitized: seq<Value>)
    ensures input.None? ==> sanitized == []
    ensures input.Some? ==> sanitized == ValidEvents(input.value)
  {
    sanitized := [];
    if input.Some? {
      var xs := input.value;
      var i := 0;
      while i < |xs|
        invariant 0 <= i <= |xs|
        invariant sanitized == ValidEvents(xs[..i])
      {
        assert xs[..i + 1][..i] == xs[..i];
        if IsEventKey(xs[i]) {
          sanitized := sanitized + [xs[i]];
        }
        i := i + 1;
      }
      assert xs[..i] == xs;
    }
  }
}
