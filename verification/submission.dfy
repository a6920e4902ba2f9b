/**
 The control flow of the submit handler. It runs synchronously up to its one
 `await` (the webhook request), so it is split in two: `Begin` is what
 happens when Submit is pressed, `Settle` what happens when the request
 settles. The host callback and the request are foreign code: only whether
 they return or throw is modelled.
 */
module Submission {
  import opened Form
  import opened Payload

  /** The component's props. An absent webhook URL is the empty string: both
      are falsy for `if (webhookUrl)`. */
  datatype Props = Props(hasCallback: bool, webhookUrl: string)

  predicate HasWebhook(p: Props)
  {
    p.webhookUrl != ""
  }

  datatype CallbackOutcome = Returned | Threw

  /** A response of any status resolves `fetch`; only a network failure
      rejects it. */
  datatype FetchOutcome = Responded(status: int) | Rejected

  /** What the handler does outside the component's state. */
  datatype Effect =
    | InvokeCallback(data: FormData)
    | PostJson(url: string, body: Payload)
    | LogError

  /** The handler either finishes before any `await`, or is suspended on
      the webhook request it has sent. */
  datatype Begun =
    | Finished(effects: seq<Effect>, submitted: bool)
    | AwaitingFetch(effects: seq<Effect>)

  /** From raising the submitting flag up to awaiting the webhook request. */
  function Begin(p: Props, fd: FormData, cb: CallbackOutcome): (b: Begun)
    ensures p.hasCallback <==> InvokeCallback(fd) in b.effects
    ensures p.hasCallback ==> b.effects[0] == InvokeCallback(fd)
    ensures b.AwaitingFetch? <==> HasWebhook(p) && !(p.hasCallback && cb == Threw)
    ensures b.AwaitingFetch? ==> |b.effects| > 0 && b.effects[|b.effects| - 1] == PostJson(p.webhookUrl, Build(fd))
    ensures b.Finished? ==> (b.submitted <==> !(p.hasCallback && cb == Threw))
    ensures b.Finished? ==> (LogError in b.effects <==> !b.submitted)
    ensures b.Finished? ==> forall e :: e in b.effects ==> !e.PostJson?
  {
    var called := if p.hasCallback then [InvokeCallback(fd)] else [];
    if p.hasCallback && cb == Threw then Finished(called + [LogError], false)
    else if HasWebhook(p) then AwaitingFetch(called + [PostJson(p.webhookUrl, Build(fd))])
    else Finished(called, true)
  }

  datatype Settled = Settled(effects: seq<Effect>, submitted: bool)

  /** From the settled `await` to the end of the handler. */
  function Settle(f: FetchOutcome): (s: Settled)
    ensures s.submitted <==> f.Responded?
    ensures s.effects == if s.submitted then [] else [LogError]
  {
    match f
    case Responded(_) => Settled([], true)
    case Rejected => Settled([LogError], false)
  }

  datatype Outcome = Outcome(effects: seq<Effect>, submitted: bool)

  /** The whole handler, for given callback and request outcomes. */
  function HandleSubmit(p: Props, fd: FormData, cb: CallbackOutcome, f: FetchOutcome): (o: Outcome)
    ensures o.submitted <==> (!p.hasCallback || cb == Returned) && (!HasWebhook(p) || f.Responded?)
    ensures p.hasCallback <==> InvokeCallback(fd) in o.effects
    ensures p.hasCallback ==> o.effects[0] == InvokeCallback(fd)
    ensures PostJson(p.webhookUrl, Build(fd)) in o.effects <==> HasWebhook(p) && (!p.hasCallback || cb == Returned)
    ensures forall i :: 0 <= i < |o.effects| && o.effects[i].PostJson? ==>
              o.effects[i] == PostJson(p.webhookUrl, Build(fd)) && (p.hasCallback ==> i > 0)
    ensures LogError in o.effects <==> !o.submitted
  {
    match Begin(p, fd, cb)
    case Finished(effects, submitted) => Outcome(effects, submitted)
    case AwaitingFetch(effects) =>
      var s := Settle(f);
      Outcome(effects + s.effects, s.submitted)
  }
}
