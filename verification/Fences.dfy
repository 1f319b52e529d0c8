/** The per-instance operation fence (src/overseer/agent_operations.py, reserve and release, with
    the compare-and-set of `save_agent_operation` in src/overseer/store.py).

    A missing row reads as generation 1 and open, which is what `ensure_agent_operation` inserts. */
module Fences {
  import opened Contracts

  datatype Fence = Open(generation: nat) | Fenced(generation: nat, owner: Id)

  const INITIAL: Fence := Open(1)

  /** Take an open fence; the generation stays. */
  function Reserve(f: Fence, token: Id): Option<Fence> {
    if f.Open? then Some(Fenced(f.generation, token)) else None
  }

  /** Compare-and-set release: only the exact held reservation opens, at the next generation. */
  function Release(f: Fence, held: Fence): Option<Fence> {
    if held.Fenced? && f == held then Some(Open(held.generation + 1)) else None
  }
}
