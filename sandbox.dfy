/** The isolated execution environment as far as the workflow sees it: a file system
    and the points where a call into it can throw. */
module SandboxModel {

  /** Where a sandbox call over a list of items throws, if it does:
      reconnecting by id fails before any item, or the operation on item `index` throws. */
  datatype Fault = NoFault | ConnectFails(error: string) | FailsAt(index: nat, error: string)

  /** How many of `n` items are processed before the fault stops the loop. */
  function Reached(fault: Fault, n: nat): (k: nat)
    ensures k <= n
    ensures !Hits(fault, n) ==> k == n
    ensures fault.FailsAt? && Hits(fault, n) ==> k == fault.index
  {
    match fault
    case NoFault => n
    case ConnectFails(_) => 0
    case FailsAt(i, _) => if i < n then i else n
  }

  /** Does the fault fire during an operation over `n` items? */
  predicate Hits(fault: Fault, n: nat)
  {
    match fault
    case NoFault => false
    case ConnectFails(_) => true
    case FailsAt(i, _) => i < n
  }

  /** The sandbox's file system (E2B `sandbox.files`). */
  class Sandbox {
    var fs: map<string, string>

    constructor (initial: map<string, string>)
      ensures fs == initial
    {
      fs := initial;
    }

    /** `sandbox.files.write(path, content)`. */
    method Write(path: string, content: string)
      modifies this
      ensures fs == old(fs)[path := content]
    {
      fs := fs[path := content];
    }
  }
}
