/**
 Singly linked lists threaded through the first words of numbered blocks, as in mempool.c and in the
 message queues of ipc.c.
 */
module LinkChain {
  import opened StableList
  import opened WaitList
  import opened Wrappers

  /** The first word of a block: the next free block, or the pool of a block that is handed out. */
  datatype Word = Link(next: Option<nat>) | Owned

  ghost predicate Chained(words: seq<Word>, head: Option<nat>, chain: seq<nat>) {
    && head == At(chain, 0)
    && forall i :: 0 <= i < |chain| ==> chain[i] < |words| && words[chain[i]] == Link(At(chain, i + 1))
  }

  ghost function At(chain: seq<nat>, i: nat): Option<nat> {
    if i < |chain| then Some(chain[i]) else None
  }

  lemma PopChain(words: seq<Word>, head: Option<nat>, chain: seq<nat>, w: Word)
    requires Chained(words, head, chain) && Distinct(chain) && chain != []
    ensures Chained(words[chain[0] := w], words[chain[0]].next, chain[1..]) && Distinct(chain[1..])
  {
  }

  lemma PushChain(words: seq<Word>, head: Option<nat>, chain: seq<nat>, b: nat)
    requires Chained(words, head, chain) && Distinct(chain) && b < |words| && b !in chain
    ensures Chained(words[b := Link(head)], Some(b), [b] + chain) && Distinct([b] + chain)
  {
    ConsElems(b, chain);
  }

  lemma ChainFrame(words: seq<Word>, head: Option<nat>, chain: seq<nat>, b: nat, w: Word)
    requires Chained(words, head, chain) && b < |words| && b !in chain
    ensures Chained(words[b := w], head, chain)
  {
  }

  lemma DropChain(words: seq<Word>, head: Option<nat>, chain: seq<nat>)
    requires Chained(words, head, chain) && chain != []
    ensures head == Some(chain[0]) && chain[0] < |words| && words[chain[0]].Link?
    ensures Chained(words, words[chain[0]].next, chain[1..])
  {
  }

  ghost function Last(chain: seq<nat>): Option<nat> { if chain == [] then None else Some(chain[|chain| - 1]) }

  /** Linking a block behind the last one, or as the first of an empty list. */
  lemma AppendChain(words: seq<Word>, head: Option<nat>, chain: seq<nat>, b: nat)
    requires Chained(words, head, chain) && Distinct(chain) && b < |words| && b !in chain && words[b] == Link(None)
    ensures chain == [] ==> Chained(words, Some(b), chain + [b])
    ensures chain != [] ==> chain[|chain| - 1] < |words| && Chained(words[chain[|chain| - 1] := Link(Some(b))], head, chain + [b])
  {
  }
}
