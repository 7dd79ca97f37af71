/**
 * The interface of the remote command channel (`ssh.command`): what a call
 * sends, and what comes back. The channel itself is an oracle, see
 * `Vm.VirtualMachine.Command`.
 */
module Ssh {

  /** What a remote command returns: its exit status and captured streams. */
  datatype CommandResult = CommandResult(returnCode: int, stdout: seq<string>, stderr: string)

  /** One remote call: the command line and the host it is sent to. */
  datatype Call = Call(command: string, host: string)

  /** A call together with the result the channel gave back for it. */
  datatype Exchange = Exchange(call: Call, result: CommandResult)

  /** The calls of a log of exchanges, in order. */
  function Calls(log: seq<Exchange>): (calls: seq<Call>)
    ensures |calls| == |log|
    ensures forall i :: 0 <= i < |log| ==> calls[i] == log[i].call
  {
    seq(|log|, i requires 0 <= i < |log| => log[i].call)
  }
}
