/** The extract-and-load collaborator (dlt pipeline over the complaints API),
    seen from the flow as an opaque call that returns load info or raises. */
module Pipeline {
  import opened Wrappers
  import opened Dates

  /** One request: load the complaints received in [dateMin, dateMax] for `company`. */
  datatype Call = Call(dateMin: Date, dateMax: Date, company: string)

  /** A request together with what it produced: `Ok(str(info))` or `Raised(str(e))`. */
  datatype Invocation = Invocation(call: Call, outcome: Result<string>)

  /** The collaborator. Its behaviour is the oracle `respond`, which may depend on
      the request and on how many requests came before it; every request it
      serves is appended to `log`. */
  class Loader {
    const respond: (Call, nat) -> Result<string>
    var log: seq<Invocation>

    /** Every logged outcome is the one the oracle gave for that request. */
    ghost predicate Valid()
      reads this
    {
      forall k :: 0 <= k < |log| ==> log[k].outcome == respond(log[k].call, k)
    }

    constructor (respond: (Call, nat) -> Result<string>)
      ensures Valid() && this.respond == respond && log == []
    {
      this.respond := respond;
      log := [];
    }

    /** `pipeline.run(extract_complaints(...))` for one request. */
    method Run(c: Call) returns (o: Result<string>)
      requires Valid()
      modifies this
      ensures Valid()
      ensures o == respond(c, |old(log)|)
      ensures log == old(log) + [Invocation(c, o)]
    {
      o := respond(c, |log|);
      log := log + [Invocation(c, o)];
    }
  }

  /** The outcomes of a run of invocations, in order. */
  function Outcomes(log: seq<Invocation>): seq<Result<string>>
  {
    seq(|log|, k requires 0 <= k < |log| => log[k].outcome)
  }

  /** The requests of a run of invocations, in order. */
  function Calls(log: seq<Invocation>): seq<Call>
  {
    seq(|log|, k requires 0 <= k < |log| => log[k].call)
  }

  /** Logging one more invocation adds its request and its outcome at the end. */
  lemma LogAppend(log: seq<Invocation>, inv: Invocation)
    ensures Calls(log + [inv]) == Calls(log) + [inv.call]
    ensures Outcomes(log + [inv]) == Outcomes(log) + [inv.outcome]
  {
  }
}
