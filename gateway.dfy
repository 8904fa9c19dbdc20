/** The remote service the feed talks to. The service itself is not modelled:
    its answers are a fixed but arbitrary function of the request number and
    the request, so a test or proof may let it answer anything, and answer
    differently over time. Every request sent is recorded. */
module Gateway {
  import opened FeedTypes

  /** The account every interaction is issued for. */
  const Actor: string := "alice.com"

  /** A write the viewer issues against a post. */
  datatype Write =
    | Like(actor: string, uri: string)
    | Unlike(actor: string, uri: string)
    | Repost(actor: string, uri: string)
    | Unrepost(actor: string, uri: string)

  datatype Request = ViewRequest(params: Params) | WriteRequest(write: Write)

  /** Success of a write, or the error it raised. */
  datatype Outcome = Pass | Fail(error: string)

  function ViewRequests(ps: seq<Params>): (rs: seq<Request>)
    ensures |rs| == |ps|
    ensures forall i :: 0 <= i < |ps| ==> rs[i] == ViewRequest(ps[i])
  {
    seq(|ps|, i requires 0 <= i < |ps| => ViewRequest(ps[i]))
  }

  lemma ViewRequestsExtend(prefix: seq<Request>, ps: seq<Params>, p: Params)
    ensures prefix + ViewRequests(ps) + [ViewRequest(p)] == prefix + ViewRequests(ps + [p])
  {
  }

  class Api {
    /** The answer to the n-th request, when it is a feed view query. */
    const viewAnswer: (nat, Params) -> ViewResult
    /** The answer to the n-th request, when it is a like/repost write. */
    const writeAnswer: (nat, Write) -> Outcome
    /** Every request sent so far, in order. */
    var sent: seq<Request>

    constructor (viewAnswer: (nat, Params) -> ViewResult, writeAnswer: (nat, Write) -> Outcome)
      ensures this.viewAnswer == viewAnswer && this.writeAnswer == writeAnswer
      ensures sent == []
    {
      this.viewAnswer := viewAnswer;
      this.writeAnswer := writeAnswer;
      sent := [];
    }

    /** The feed view query. */
    method View(p: Params) returns (r: ViewResult)
      modifies this
      ensures sent == old(sent) + [ViewRequest(p)]
      ensures r == viewAnswer(|old(sent)|, p)
    {
      r := viewAnswer(|sent|, p);
      sent := sent + [ViewRequest(p)];
    }

    /** One of the like, unlike, repost and unrepost calls. */
    method Send(w: Write) returns (r: Outcome)
      modifies this
      ensures sent == old(sent) + [WriteRequest(w)]
      ensures r == writeAnswer(|old(sent)|, w)
    {
      r := writeAnswer(|sent|, w);
      sent := sent + [WriteRequest(w)];
    }
  }
}
