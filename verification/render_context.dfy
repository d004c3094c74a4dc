/**
 * The page's render context and the instance counter the tag keeps in it, so
 * that the players on one page get distinct sequential ids.
 */
module RenderContext {
  import opened Wrappers
  import opened Values

  const CounterKey := "flowplayer_iterator"

  /**
   * One tag occurrence's step on the counter entry: absent becomes 0, an
   * integer grows by one, and anything else makes `+= 1` raise.
   */
  function CounterStep(entries: map<string, Value>): (r: Result<map<string, Value>, Error>)
    ensures r.Err? <==> CounterKey in entries && !entries[CounterKey].Int?
    ensures r.Err? ==> r.error == TypeError
    ensures r.Ok? ==>
      CounterKey in r.value &&
      r.value[CounterKey] == Int(if CounterKey in entries then entries[CounterKey].n + 1 else 0)
    ensures r.Ok? ==> forall k :: k != CounterKey ==>
      (k in r.value <==> k in entries) && (k in entries ==> r.value[k] == entries[k])
  {
    if CounterKey in entries then
      match entries[CounterKey]
      case Int(n) => Ok(entries[CounterKey := Int(n + 1)])
      case _ => Err(TypeError)
    else
      Ok(entries[CounterKey := Int(0)])
  }

  /** The context's bindings after `n` tag occurrences have been rendered in it. */
  function AfterRenders(entries: map<string, Value>, n: nat): Result<map<string, Value>, Error>
  {
    if n == 0 then Ok(entries)
    else
      match AfterRenders(entries, n - 1)
      case Ok(e) => CounterStep(e)
      case Err(err) => Err(err)
  }

  /**
   * In a context that has no counter yet, the n-th tag occurrence sees the
   * counter at n - 1, and the other bindings are as they were.
   */
  lemma {:induction false} NthRenderSeesPredecessor(entries: map<string, Value>, n: nat)
    requires CounterKey !in entries
    requires n >= 1
    ensures AfterRenders(entries, n) == Ok(entries[CounterKey := Int(n - 1)])
  {
    if n > 1 {
      NthRenderSeesPredecessor(entries, n - 1);
      assert entries[CounterKey := Int(n - 2)][CounterKey := Int(n - 1)] == entries[CounterKey := Int(n - 1)];
    }
  }

  /** The render context: its bindings, updated in place by the tag. */
  class Context {
    var entries: map<string, Value>

    constructor (entries: map<string, Value>)
      ensures this.entries == entries
    {
      this.entries := entries;
    }

    /** Lines 47-50 of the render: the counter step, giving the counter's new value. */
    method Advance() returns (r: Result<int, Error>)
      modifies this
      ensures CounterStep(old(entries)).Err? ==> r == Err(TypeError) && entries == old(entries)
      ensures CounterStep(old(entries)).Ok? ==>
        entries == CounterStep(old(entries)).value && r == Ok(entries[CounterKey].n)
    {
      if CounterKey in entries {
        match entries[CounterKey]
        case Int(n) =>
          entries := entries[CounterKey := Int(n + 1)];
          r := Ok(n + 1);
        case _ =>
          r := Err(TypeError);
      } else {
        entries := entries[CounterKey := Int(0)];
        r := Ok(0);
      }
    }
  }
}
