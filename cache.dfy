/**
 The process-wide icon cache shared by every mounted icon: a map from sprite
 URL to the fetch in flight for it or to the metadata parsed from it.  Mounts
 and fetch completions are modelled as discrete steps taken one at a time.
 */
module IconCache {
  import opened SpriteHeader
  import opened IconView

  /** A cache slot: the fetch started for the URL, or the metadata it produced. */
  datatype Entry = Pending | Resolved(meta: IconMeta)

  /** What a mounting icon does: start the fetch itself, wait for the fetch
      another icon started, or adopt metadata already parsed. */
  datatype MountStep = StartFetch | AwaitFetch | Adopt(meta: IconMeta)

  class IconLib {
    var entries: map<string, Entry>
    /** Number of network fetches issued per URL (observation only). */
    ghost var fetched: map<string, nat>

    /** Every URL in the cache was fetched exactly once, and no other URL was fetched. */
    ghost predicate Valid()
      reads this
    {
      fetched.Keys == entries.Keys && forall u :: u in fetched ==> fetched[u] == 1
    }

    /** Number of fetches issued for url so far. */
    ghost function Fetches(url: string): nat
      reads this
    {
      if url in fetched then fetched[url] else 0
    }

    constructor ()
      ensures Valid() && entries == map[] && fetched == map[]
    {
      entries := map[];
      fetched := map[];
    }

    /** An icon for `src` mounts: an unseen URL gets a Pending slot and one
        fetch; a known URL is only looked up. */
    method Mount(src: string) returns (step: MountStep)
      requires Valid()
      modifies this
      ensures Valid()
      ensures src in old(entries) ==> entries == old(entries) && fetched == old(fetched)
      ensures src in old(entries) ==>
        step == (if old(entries)[src].Pending? then AwaitFetch else Adopt(old(entries)[src].meta))
      ensures src !in old(entries) ==>
        step == StartFetch && entries == old(entries)[src := Pending] && fetched == old(fetched)[src := 1]
      ensures step == StartFetch <==> old(Fetches(src)) == 0
      ensures old(entries).Keys <= entries.Keys
      ensures forall u :: Fetches(u) <= 1
    {
      if src in entries {
        match entries[src]
        case Pending => step := AwaitFetch;
        case Resolved(meta) => step := Adopt(meta);
      } else {
        entries := entries[src := Pending];
        fetched := fetched[src := Fetches(src) + 1];
        step := StartFetch;
      }
    }

    /** The fetch for `src` has delivered `contents`.  On a successful parse the
        slot is replaced by the metadata, which also becomes the mounting
        icon's state; on a parse error nothing is stored and the slot keeps
        the fetch. */
    method Complete(src: string, contents: string) returns (state: IconState)
      requires Valid() && src in entries && entries[src] == Pending
      modifies this
      ensures Valid() && fetched == old(fetched) && entries.Keys == old(entries).Keys
      ensures Parse(contents).Parsed? ==>
        entries == old(entries)[src := Resolved(Parse(contents).meta)] && state == Ready(Parse(contents).meta)
      ensures !Parse(contents).Parsed? ==> entries == old(entries) && state == NoMeta
      ensures state != ErrorMeta
      ensures forall u :: u in old(entries) && old(entries)[u].Resolved? ==> entries[u] == old(entries)[u]
    {
      var r := BuildMeta(contents);
      if r.Parsed? {
        entries := entries[src := Resolved(r.meta)];
        state := Ready(r.meta);
      } else {
        state := NoMeta;
      }
    }
  }

  /** Two icons for the same URL mounted one after the other: only the first
      starts a fetch, and both leave the process with exactly one fetch. */
  method MountTwice(lib: IconLib, src: string) returns (first: MountStep, second: MountStep)
    requires lib.Valid() && src !in lib.entries
    modifies lib
    ensures lib.Valid()
    ensures first == StartFetch && second == AwaitFetch && lib.Fetches(src) == 1
  {
    first := lib.Mount(src);
    second := lib.Mount(src);
  }
}
