/** Requests and their position arithmetic. */
module Requests {
  import opened Options
  import opened Decoding

  datatype Status = Waiting | Prefill | Running | Preempted | Finished | Aborted

  /**
   A sequence's view of the paged pool. `adopted` counts the leading blocks taken
   from the prefix cache: num_cached_prefix is adopted * block_size.
   */
  datatype SeqKV = SeqKV(table: seq<nat>, length: nat, adopted: nat)

  /** Ids are arrival numbers. */
  datatype Req = Req(
    id: nat,
    prompt: seq<Token>,
    maxTokens: nat,
    ignoreEos: bool,
    status: Status,
    output: seq<Token>,
    kv: Option<SeqKV>,
    computed: nat)
  {
    function AllTokens(): seq<Token> { prompt + output }

    /** How many tokens must be resident before decoding can go on: all but the last generated one. */
    function PrefillTarget(): nat { |prompt| + if |output| > 0 then |output| - 1 else 0 }

    function PrefillTokens(): seq<Token> { AllTokens()[..PrefillTarget()] }

    predicate PrefillDone() { computed >= PrefillTarget() }

    function RemainingPrefill(): nat {
      if PrefillTarget() > computed then PrefillTarget() - computed else 0
    }

    function LastToken(): Token
      requires prompt != []
    {
      if output != [] then output[|output| - 1] else prompt[|prompt| - 1]
    }

    predicate IsFinished() { status == Finished || status == Aborted }

    /** The block table; a request without KV has none. */
    function Table(): seq<nat> { if kv.Some? then kv.value.table else [] }

    function Adopted(): nat { if kv.Some? then kv.value.adopted else 0 }

    /** Preemption by recomputation: drop the KV, keep the generated tokens. */
    function Reset(): Req { this.(kv := None, computed := 0, status := Preempted) }

    /** Append a sampled token and finish on EOS or at the length limit. */
    function Emit(t: Token): Req {
      var r := this.(output := output + [t]);
      if t == EOS_ID && !ignoreEos then r.(status := Finished)
      else if |r.output| >= maxTokens then r.(status := Finished)
      else r
    }
  }

  /** What plain decoding gives this request. */
  function Reference(m: Model, r: Req): seq<Token>
    requires r.prompt != []
  {
    Continue(m, r.prompt, r.maxTokens, r.ignoreEos)
  }
}
