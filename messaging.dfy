/** The message broker as the composite sees it: an append-only log per
    channel. What the broker does with a send is not visible to the model, so
    it is a parameter: `answer(n)` is the answer to the channel's n-th send
    (counted from 0 over the channel's life), either accepted (Pass) or thrown
    (Fail with the exception). `sent` counts the sends made so far. */
module Messaging {
  import opened Api

  /** The event a message carries, tagged by the entity it is about. */
  datatype Payload =
    | ProductEvent(productEvent: Event<Product>)
    | RecommendationEvent(recommendationEvent: Event<Recommendation>)
    | ReviewEvent(reviewEvent: Event<Review>)

  /** A message sent to an output binding: the payload and its partitionKey header. */
  datatype Message = Message(binding: string, payload: Payload, partitionKey: int)

  function EventKey(p: Payload): int {
    match p
    case ProductEvent(e) => e.key
    case RecommendationEvent(e) => e.key
    case ReviewEvent(e) => e.key
  }

  /** How many of len consecutive sends, the first of them the n-th send of
      the channel, are accepted before the first refusal. */
  function Accepted(answer: nat -> Outcome, n: nat, len: nat): (k: nat)
    ensures k <= len
    decreases len
  {
    if len == 0 || answer(n).Fail? then 0 else 1 + Accepted(answer, n + 1, len - 1)
  }

  /** How many of those sends are made when a refusal stops the run: the
      accepted ones and the refused one. */
  function Attempts(answer: nat -> Outcome, n: nat, len: nat): nat {
    var k := Accepted(answer, n, len);
    if k < len then k + 1 else k
  }

  /** Accepted counts up to the first refusal: every send before it passes, and
      when not all are accepted, the next one is refused. */
  lemma {:induction false} AcceptedIsFirstRefusal(answer: nat -> Outcome, n: nat, len: nat)
    ensures forall m: nat :: n <= m < n + Accepted(answer, n, len) ==> answer(m).Pass?
    ensures Accepted(answer, n, len) < len ==> answer(n + Accepted(answer, n, len)).Fail?
    decreases len
  {
    if len > 0 && answer(n).Pass? {
      AcceptedIsFirstRefusal(answer, n + 1, len - 1);
      assert n + Accepted(answer, n, len) == (n + 1) + Accepted(answer, n + 1, len - 1);
    }
  }

  /** A run of p sends followed by q sends: the second run counts only when the
      whole first run was accepted. */
  lemma {:induction false} AcceptedConcat(answer: nat -> Outcome, n: nat, p: nat, q: nat)
    ensures Accepted(answer, n, p + q) ==
      if Accepted(answer, n, p) < p then Accepted(answer, n, p) else p + Accepted(answer, n + p, q)
    decreases p
  {
    if p > 0 && answer(n).Pass? {
      AcceptedConcat(answer, n + 1, p - 1, q);
      assert (n + 1) + (p - 1) == n + p;
    }
  }

  /** Under a broker that accepts every send, every run is accepted in full. */
  lemma {:induction false} AcceptedAll(answer: nat -> Outcome, n: nat, len: nat)
    requires forall m :: answer(m) == Pass
    ensures Accepted(answer, n, len) == len
    decreases len
  {
    if len > 0 {
      AcceptedAll(answer, n + 1, len - 1);
    }
  }

  /** Step i of a run, accepted after i accepted steps: the log grows by the
      step and i + 1 steps are accepted. */
  lemma SendAccepted<T>(answer: nat -> Outcome, log0: seq<T>, n0: nat, plan: seq<T>, i: nat)
    requires i < |plan| && Accepted(answer, n0, i) == i && answer(n0 + i).Pass?
    ensures (log0 + plan[..i]) + [plan[i]] == log0 + plan[..i + 1]
    ensures Accepted(answer, n0, i + 1) == i + 1
  {
    AcceptedConcat(answer, n0, i, 1);
    assert plan[..i + 1] == plan[..i] + [plan[i]];
  }

  /** Step i of a run, refused after i accepted steps: the whole run has i
      accepted steps. */
  lemma SendRefused(answer: nat -> Outcome, n0: nat, len: nat, i: nat)
    requires i < len && Accepted(answer, n0, i) == i && answer(n0 + i).Fail?
    ensures Accepted(answer, n0, len) == i
  {
    AcceptedConcat(answer, n0, i, len - i);
  }

  /** The state after making the sends of a plan one after another, stopping
      at the first refusal: exactly the accepted prefix is logged, exactly the
      sends up to and including the refused one are made, and the outcome is
      the refused send's own exception, or Pass when the whole plan was accepted. */
  ghost predicate RunOutcome<T>(answer: nat -> Outcome, log0: seq<T>, n0: nat, plan: seq<T>,
                                log: seq<T>, n: nat, o: Outcome)
  {
    var k := Accepted(answer, n0, |plan|);
    log == log0 + plan[..k] && n == n0 + Attempts(answer, n0, |plan|) &&
    o == if k < |plan| then answer(n0 + k) else Pass
  }

  /** Two runs, the second made only when the first passed, are one run of
      the concatenated plan. */
  lemma RunThen<T>(answer: nat -> Outcome, log0: seq<T>, n0: nat, a: seq<T>, b: seq<T>,
                   log1: seq<T>, n1: nat, o1: Outcome, log2: seq<T>, n2: nat, o2: Outcome)
    requires RunOutcome(answer, log0, n0, a, log1, n1, o1)
    requires o1.Pass? ==> RunOutcome(answer, log1, n1, b, log2, n2, o2)
    requires o1.Fail? ==> log2 == log1 && n2 == n1 && o2 == o1
    ensures RunOutcome(answer, log0, n0, a + b, log2, n2, o2)
  {
    AcceptedConcat(answer, n0, |a|, |b|);
    AcceptedIsFirstRefusal(answer, n0, |a|);
    var k1 := Accepted(answer, n0, |a|);
    if o1.Pass? {
      var k2 := Accepted(answer, n1, |b|);
      assert (a + b)[..|a| + k2] == a + b[..k2];
      assert a[..k1] == a;
    } else {
      assert (a + b)[..k1] == a[..k1];
    }
  }

  /** Three runs, each made only when the one before it passed, are one run of
      the three plans concatenated. */
  lemma RunThenThen<T>(answer: nat -> Outcome, log0: seq<T>, n0: nat, plan: seq<T>, a: seq<T>, b: seq<T>, c: seq<T>,
                       log1: seq<T>, n1: nat, o1: Outcome, log2: seq<T>, n2: nat, o2: Outcome,
                       log3: seq<T>, n3: nat, o3: Outcome)
    requires plan == a + b + c
    requires RunOutcome(answer, log0, n0, a, log1, n1, o1)
    requires o1.Pass? ==> RunOutcome(answer, log1, n1, b, log2, n2, o2)
    requires o1.Fail? ==> log2 == log1 && n2 == n1 && o2 == o1
    requires o2.Pass? ==> RunOutcome(answer, log2, n2, c, log3, n3, o3)
    requires o2.Fail? ==> log3 == log2 && n3 == n2 && o3 == o2
    ensures RunOutcome(answer, log0, n0, plan, log3, n3, o3)
  {
    RunThen(answer, log0, n0, a, b, log1, n1, o1, log2, n2, o2);
    RunThen(answer, log0, n0, a + b, c, log2, n2, o2, log3, n3, o3);
  }

  class Channel<T> {
    var log: seq<T>
    var sent: nat
    const answer: nat -> Outcome

    constructor (answer: nat -> Outcome)
      ensures log == [] && sent == 0 && this.answer == answer
    {
      log := [];
      sent := 0;
      this.answer := answer;
    }

    /** One send: the broker's answer to it is returned; an accepted send is
        appended to the log, a refused one leaves the log unchanged. */
    method Send(x: T) returns (o: Outcome)
      modifies this
      ensures o == answer(old(sent)) && sent == old(sent) + 1
      ensures log == if o.Pass? then old(log) + [x] else old(log)
    {
      o := answer(sent);
      if o.Pass? {
        log := log + [x];
      }
      sent := sent + 1;
    }
  }
}
