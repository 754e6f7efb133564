/** The timer wheel of the runtime, as far as its users can see it: every insertion
    yields a key under which the entry can be removed or given a new deadline, until the
    entry expires. The keys of entries that are gone are handed out again: a key is safe to
    use only as long as its holder knows that its own entry is still there. */
module DelayQueues {
  datatype Timer<K> = Timer(value: K, deadline: nat)

  datatype DelayQueue<K> = DelayQueue(items: map<nat, Timer<K>>)
  {
    /** The key the next entry gets. Nothing relies on which free one it is. */
    function NewKey(): (k: nat)
      ensures k !in items
    {
      FreeFrom(0)
    }

    function FreeFrom(k: nat): (free: nat)
      ensures free !in items
      decreases |set j | j in items && j >= k|
    {
      if k !in items then k
      else
        assert (set j | j in items && j >= k) == (set j | j in items && j >= k + 1) + {k};
        FreeFrom(k + 1)
    }

    function Insert(value: K, deadline: nat): DelayQueue<K> {
      DelayQueue(items[NewKey() := Timer(value, deadline)])
    }

    function Remove(key: nat): DelayQueue<K> {
      DelayQueue(items - {key})
    }

    function Reset(key: nat, deadline: nat): DelayQueue<K> {
      if key in items then DelayQueue(items[key := items[key].(deadline := deadline)]) else this
    }
  }

  function EmptyQueue<K>(): DelayQueue<K> { DelayQueue(map[]) }
}
