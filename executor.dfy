/** The command-execution capability the config applier is written against, in the form
    of the recording test double: each call is appended to a trace, and the call with
    index i gets the i-th scripted response. */
module Executor {

  /** A prepared command; only its argument vector is modelled. */
  datatype Cmd = Cmd(args: seq<string>)

  /** Whether the call with index `i` comes back with an error under the script `responses`:
      either it is scripted to, or it is beyond the script, which the double reports as a
      fatal test failure. */
  predicate ScriptedError(responses: seq<bool>, i: nat)
  {
    i >= |responses| || responses[i]
  }

  class MockExecutor {
    /** Every command received so far, in the order received. */
    var calls: seq<Cmd>
    /** The scripted outcome of each call by index; `true` means that call returns an error. */
    var responses: seq<bool>

    constructor (responses: seq<bool>)
      ensures calls == [] && this.responses == responses
    {
      calls := [];
      this.responses := responses;
    }

    /** Whether the call with index `i` comes back with an error under this recorder's script. */
    predicate ErrorAt(i: nat)
      reads this
    {
      ScriptedError(responses, i)
    }

    /** Some call arrived that the script did not provide for. */
    predicate Unexpected()
      reads this
    {
      |calls| > |responses|
    }

    /** Records `cmd` and answers with the response scripted for its position. */
    method RunAndCheck(cmd: Cmd) returns (err: bool)
      modifies this
      ensures calls == old(calls) + [cmd]
      ensures responses == old(responses)
      ensures err == ErrorAt(|old(calls)|)
      ensures Unexpected() <==> old(Unexpected()) || |old(calls)| >= |responses|
    {
      var responseIdx := |calls|;
      calls := calls + [cmd];
      if |responses| < responseIdx + 1 {
        // the test is failed fatally; no later call is made by any applier after an error
        err := true;
      } else {
        err := responses[responseIdx];
      }
    }

    /** The argument vectors of the recorded calls, in order. */
    method GetCalls() returns (argv: seq<seq<string>>)
      ensures |argv| == |calls|
      ensures forall i :: 0 <= i < |calls| ==> argv[i] == calls[i].args
    {
      argv := [];
      for k := 0 to |calls|
        invariant |argv| == k
        invariant forall i :: 0 <= i < k ==> argv[i] == calls[i].args
      {
        argv := argv + [calls[k].args];
      }
    }
  }
}
