/** The payment consumer of chapter 07: retry each message, send it to the dead-letter topic when that fails, commit. */
module DeadLetters {
  import opened Sequences
  import opened Retry

  datatype Payment = Payment(paymentId: Option<string>, userId: Option<string>, amount: Option<int>,
                             currency: Option<string>)

  datatype Receipt = Receipt(paymentId: string, userId: string, amount: int, currency: string)

  datatype DeadLetter = DeadLetter(paymentId: string, userId: string, amount: int, currency: string,
                                   error: string, retryCount: int)

  function OrElse<T>(x: Option<T>, default: T): T {
    if x.Some? then x.value else default
  }

  /** The amount the service always refuses. */
  const REFUSED := 10

  /** A refused amount raises first; then the first missing field does. */
  function ProcessPayment(p: Payment): Outcome<Receipt> {
    if p.amount == Some(REFUSED) then Retriable("amount refused")
    else if p.paymentId.None? then Retriable("payment_id")
    else if p.userId.None? then Retriable("user_id")
    else if p.amount.None? then Retriable("amount")
    else if p.currency.None? then Retriable("currency")
    else Value(Receipt(p.paymentId.value, p.userId.value, p.amount.value, p.currency.value))
  }

  function DeadLetterOf(p: Payment, error: string, retryCount: int): DeadLetter {
    DeadLetter(OrElse(p.paymentId, "unknown"), OrElse(p.userId, "unknown"), OrElse(p.amount, 0),
               OrElse(p.currency, "KRW"), error, retryCount)
  }

  /** A letter carries the payment's own fields, or the defaults of missing ones. */
  ghost predicate LetterFor(l: DeadLetter, p: Payment, error: string, retryCount: int) {
    && (p.paymentId == Some(l.paymentId) || (p.paymentId == None && l.paymentId == "unknown"))
    && (p.userId == Some(l.userId) || (p.userId == None && l.userId == "unknown"))
    && (p.amount == Some(l.amount) || (p.amount == None && l.amount == 0))
    && (p.currency == Some(l.currency) || (p.currency == None && l.currency == "KRW"))
    && l.error == error && l.retryCount == retryCount
  }

  /** A receipt carries the payment's own fields. */
  ghost predicate ReceiptFor(r: Receipt, p: Payment) {
    && p.paymentId == Some(r.paymentId) && p.userId == Some(r.userId)
    && p.amount == Some(r.amount) && p.currency == Some(r.currency)
  }

  lemma DeadLetterFields(p: Payment, error: string, retryCount: int)
    ensures LetterFor(DeadLetterOf(p, error, retryCount), p, error, retryCount)
  {
  }

  /**
   The service raises on an amount of 10, then on the first missing field of id, user, amount and currency; otherwise
   its receipt carries the payment's fields.
   */
  lemma ProcessPaymentFields(p: Payment)
    ensures ProcessPayment(p).Value? <==>
      p.paymentId.Some? && p.userId.Some? && p.amount.Some? && p.currency.Some? && p.amount != Some(10)
    ensures ProcessPayment(p).Value? ==> ReceiptFor(ProcessPayment(p).value, p)
    ensures !ProcessPayment(p).Value? ==> ProcessPayment(p) == Retriable(
      if p.amount == Some(10) then "amount refused"
      else if p.paymentId == None then "payment_id" else if p.userId == None then "user_id"
      else if p.amount == None then "amount" else "currency")
  {
  }

  /** A message with what its attempts do, the jitters drawn, and whether the dead-letter send would raise. */
  datatype Trial = Trial(payment: Payment, outs: seq<Outcome<Receipt>>, jitters: seq<real>, dlqFails: bool)

  /** An attempt fails, or does what the service does. */
  predicate TrialOk(t: Trial, max: int) {
    && |t.outs| >= max && |t.jitters| >= max
    && forall j :: 0 <= j < |t.outs| && t.outs[j].Value? ==> t.outs[j] == ProcessPayment(t.payment)
  }

  datatype Fate = Processed | DeadLettered | Dropped

  /** What the loop made of one message: `attempts` is how often the service was called. */
  datatype Handling = Handling(payment: Payment, fate: Fate, attempts: nat, error: string)

  const NOTHING_TO_RAISE := "exceptions must derive from BaseException"

  function HandlingOf(t: Trial, max: int): Handling
    requires |t.outs| >= max
  {
    var failed := if t.dlqFails then Dropped else DeadLettered;
    if max <= 0 then Handling(t.payment, failed, 0, NOTHING_TO_RAISE)
    else
      var k := StopAt(CatchAll(t.outs), 0, max);
      if t.outs[k].Value? then Handling(t.payment, Processed, k + 1, "")
      else Handling(t.payment, failed, k + 1, t.outs[k].error)
  }

  ghost predicate Succeeds(t: Trial, max: int) {
    exists j :: 0 <= j < max && j < |t.outs| && t.outs[j].Value?
  }

  /**
   A message is processed exactly when one of its allowed attempts succeeds, after the attempts up to the first
   such; otherwise every allowed attempt was made and the message is dropped exactly when its dead letter is.
   */
  lemma HandlingMeaning(t: Trial, max: int)
    requires TrialOk(t, max)
    ensures var h := HandlingOf(t, max);
      && (h.fate == Processed <==> Succeeds(t, max))
      && (h.fate == Processed ==>
            && 1 <= h.attempts <= max && t.outs[h.attempts - 1].Value?
            && forall j :: 0 <= j < h.attempts - 1 ==> !t.outs[j].Value?)
      && (h.fate != Processed ==> h.attempts == Rounds(max) && (h.fate == Dropped <==> t.dlqFails))
      && (h.fate != Processed && max >= 1 ==> h.error == t.outs[max - 1].error)
  {
    if max > 0 {
      var caught := CatchAll(t.outs);
      var k := StopAt(caught, 0, max);
      StopAtIs(caught, max, k);
      assert forall j :: 0 <= j < |t.outs| ==> (caught[j].Value? <==> t.outs[j].Value?);
      if k == max - 1 && !t.outs[k].Value? {
        assert forall j :: 0 <= j < max ==> !t.outs[j].Value?;
      }
    }
  }

  /** The service answers the same each time, so with it alone retries never help: one attempt, or all in vain. */
  lemma RetriesNeverHelp(t: Trial, max: int)
    requires TrialOk(t, max) && max >= 1
    requires forall j :: 0 <= j < |t.outs| ==> t.outs[j] == ProcessPayment(t.payment)
    ensures var h := HandlingOf(t, max); var p := t.payment;
      && (h.fate == Processed <==>
            p.paymentId.Some? && p.userId.Some? && p.currency.Some? && p.amount.Some? && p.amount != Some(10))
      && h.attempts == (if h.fate == Processed then 1 else max)
  {
    HandlingMeaning(t, max);
    if ProcessPayment(t.payment).Value? {
      assert t.outs[0].Value?;
    }
  }

  // ---- splitting the committed messages ----

  /** The messages with one fate, in order. */
  function Select(hs: seq<Handling>, fate: Fate): seq<Handling> {
    if hs == [] then []
    else
      var h := hs[|hs| - 1];
      Select(hs[..|hs| - 1], fate) + (if h.fate == fate then [h] else [])
  }

  lemma {:induction false} SelectPrefix(hs: seq<Handling>, i: nat, fate: Fate)
    requires i <= |hs|
    ensures Select(hs[..i], fate) <= Select(hs, fate)
  {
    if i < |hs| {
      var n := |hs| - 1;
      SelectPrefix(hs[..n], i, fate);
      assert hs[..n][..i] == hs[..i];
    } else {
      assert hs[..i] == hs;
    }
  }

  lemma {:induction false} SelectLengths(hs: seq<Handling>)
    ensures |Select(hs, Processed)| + |Select(hs, DeadLettered)| + |Select(hs, Dropped)| == |hs|
  {
    if hs != [] { SelectLengths(hs[..|hs| - 1]); }
  }

  lemma {:induction false} SelectFates(hs: seq<Handling>, fate: Fate)
    ensures forall k :: 0 <= k < |Select(hs, fate)| ==> Select(hs, fate)[k].fate == fate
  {
    if hs != [] { SelectFates(hs[..|hs| - 1], fate); }
  }

  /**
   The three lists split the messages without overlap and in order: message i stands in the list of its fate
   behind exactly the earlier messages of that fate, and the lists hold nothing else.
   */
  lemma SplitInOrder(hs: seq<Handling>, i: nat)
    requires i < |hs|
    ensures var list, before := Select(hs, hs[i].fate), |Select(hs[..i], hs[i].fate)|;
      before < |list| && list[before] == hs[i]
    ensures forall fate :: fate != hs[i].fate ==> Select(hs[..i + 1], fate) == Select(hs[..i], fate)
    ensures |Select(hs, Processed)| + |Select(hs, DeadLettered)| + |Select(hs, Dropped)| == |hs|
  {
    assert hs[..i + 1][..i] == hs[..i];
    SelectPrefix(hs, i + 1, hs[i].fate);
    SelectLengths(hs);
  }

  function Handlings(ts: seq<Trial>, max: int): seq<Handling>
    requires forall i :: 0 <= i < |ts| ==> TrialOk(ts[i], max)
  {
    seq(|ts|, i requires 0 <= i < |ts| && TrialOk(ts[i], max) => HandlingOf(ts[i], max))
  }

  /** The results stored: one for each processed message, in order. */
  function Receipts(hs: seq<Handling>): seq<Receipt> {
    if hs == [] then []
    else
      var h := hs[|hs| - 1];
      var answer := ProcessPayment(h.payment);
      Receipts(hs[..|hs| - 1]) + (if h.fate == Processed && answer.Value? then [answer.value] else [])
  }

  /** The dead letters sent: one for each dead-lettered message, in order. */
  function Letters(hs: seq<Handling>, max: int): seq<DeadLetter> {
    if hs == [] then []
    else
      var h := hs[|hs| - 1];
      Letters(hs[..|hs| - 1], max) + (if h.fate == DeadLettered then [DeadLetterOf(h.payment, h.error, max)] else [])
  }

  lemma HandlingsNext(ts: seq<Trial>, i: nat, max: int)
    requires i < |ts| && forall j :: 0 <= j < |ts| ==> TrialOk(ts[j], max)
    ensures Handlings(ts[..i + 1], max) == Handlings(ts[..i], max) + [HandlingOf(ts[i], max)]
  {
  }

  lemma ResultsNext(hs: seq<Handling>, h: Handling, max: int)
    ensures var answer := ProcessPayment(h.payment);
      Receipts(hs + [h]) == Receipts(hs) + (if h.fate == Processed && answer.Value? then [answer.value] else [])
    ensures Letters(hs + [h], max)
         == Letters(hs, max) + (if h.fate == DeadLettered then [DeadLetterOf(h.payment, h.error, max)] else [])
  {
    assert (hs + [h])[..|hs|] == hs;
  }

  /** A stored result for each processed message and a letter for each dead-lettered one, position by position. */
  lemma {:induction false} ResultsMatch(ts: seq<Trial>, max: int)
    requires forall i :: 0 <= i < |ts| ==> TrialOk(ts[i], max)
    ensures var hs := Handlings(ts, max); var done, dead := Select(hs, Processed), Select(hs, DeadLettered);
      && |Receipts(hs)| == |done| && |Letters(hs, max)| == |dead|
      && (forall k :: 0 <= k < |done| ==> ReceiptFor(Receipts(hs)[k], done[k].payment))
      && (forall k :: 0 <= k < |dead| ==> LetterFor(Letters(hs, max)[k], dead[k].payment, dead[k].error, max))
  {
    if ts != [] {
      var n := |ts| - 1;
      ResultsMatch(ts[..n], max);
      HandlingMeaning(ts[n], max);
      ProcessPaymentFields(ts[n].payment);
      DeadLetterFields(ts[n].payment, HandlingOf(ts[n], max).error, max);
      assert Handlings(ts, max)[..n] == Handlings(ts[..n], max);
    }
  }

  /** The consumer with its in-memory results, the dead-letter topic and the committed offset. */
  class PaymentConsumer {
    var processed: seq<Receipt>
    var deadLetters: seq<DeadLetter>
    var committed: nat

    constructor ()
      ensures processed == [] && deadLetters == [] && committed == 0
    {
      processed, deadLetters, committed := [], [], 0;
    }

    /** A failing send is logged and swallowed. */
    method SendToDlq(p: Payment, error: string, retryCount: int, fails: bool)
      modifies this`deadLetters
      ensures fails ==> deadLetters == old(deadLetters)
      ensures !fails ==>
        && |deadLetters| == |old(deadLetters)| + 1 && deadLetters[..|old(deadLetters)|] == old(deadLetters)
        && LetterFor(deadLetters[|old(deadLetters)|], p, error, retryCount)
      ensures deadLetters == old(deadLetters) + (if fails then [] else [DeadLetterOf(p, error, retryCount)])
    {
      if !fails {
        deadLetters := deadLetters + [
          DeadLetter(if p.paymentId.Some? then p.paymentId.value else "unknown",
                     if p.userId.Some? then p.userId.value else "unknown",
                     if p.amount.Some? then p.amount.value else 0,
                     if p.currency.Some? then p.currency.value else "KRW", error, retryCount)];
      }
    }

    /** One message of the loop, with the chapter's retry. */
    method HandleMessage(t: Trial, max: int, base: real) returns (h: Handling)
      requires TrialOk(t, max)
      modifies this
      ensures h == HandlingOf(t, max)
      ensures h.fate == Processed ==> ProcessPayment(t.payment).Value?
      ensures processed == old(processed) + (if h.fate == Processed then [ProcessPayment(t.payment).value] else [])
      ensures deadLetters == old(deadLetters)
        + (if h.fate == DeadLettered then [DeadLetterOf(t.payment, h.error, max)] else [])
      ensures h.fate == Processed ==> processed != [] && ReceiptFor(processed[|processed| - 1], t.payment)
      ensures h.fate == DeadLettered ==>
        deadLetters != [] && LetterFor(deadLetters[|deadLetters| - 1], t.payment, h.error, max)
      ensures committed == old(committed) + 1
    {
      HandlingMeaning(t, max);
      ProcessPaymentFields(t.payment);
      var result, attempts, slept := RetryFor(t.outs, max, base, t.jitters);
      match result {
        case Ok(receipt) =>
          processed := processed + [receipt];
          h := Handling(t.payment, Processed, attempts, "");
        case Error(error) =>
          SendToDlq(t.payment, error, max, t.dlqFails);
          h := Handling(t.payment, if t.dlqFails then Dropped else DeadLettered, attempts, error);
        case NothingToRaise =>
          SendToDlq(t.payment, NOTHING_TO_RAISE, max, t.dlqFails);
          h := Handling(t.payment, if t.dlqFails then Dropped else DeadLettered, attempts, NOTHING_TO_RAISE);
      }
      committed := committed + 1;
    }

    /**
     The loop over the log: every message is committed, and the results are exactly the receipts of the processed
     messages and the letters of the dead-lettered ones, each in log order.
     */
    method ConsumePayments(ts: seq<Trial>, max: int, base: real) returns (hs: seq<Handling>)
      requires forall i :: 0 <= i < |ts| ==> TrialOk(ts[i], max)
      modifies this
      ensures hs == Handlings(ts, max)
      ensures committed == old(committed) + |ts|
      ensures processed == old(processed) + Receipts(hs)
      ensures deadLetters == old(deadLetters) + Letters(hs, max)
    {
      hs := [];
      var i := 0;
      while i < |ts|
        invariant 0 <= i <= |ts|
        invariant hs == Handlings(ts[..i], max)
        invariant committed == old(committed) + i
        invariant processed == old(processed) + Receipts(hs)
        invariant deadLetters == old(deadLetters) + Letters(hs, max)
      {
        var h := HandleMessage(ts[i], max, base);
        HandlingsNext(ts, i, max);
        ResultsNext(hs, h, max);
        hs := hs + [h];
        i := i + 1;
      }
      assert ts[..i] == ts;
    }
  }
}
