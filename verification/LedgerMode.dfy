/** The ledger service mode (modes.go): a second append that reads the store instead of a cache,
    behind an endpoint that refuses to extend a broken chain. */
module LedgerMode {
  import opened Types
  import opened Ledgers

  /** The store after one `appendLedger`. */
  function PlainAppended(h: Entry -> string, store: seq<Entry>, e: Entry, now: int): seq<Entry> {
    var prev := if store == [] then GENESIS else store[|store| - 1].hash;
    var sealed := e.(prevHash := prev, index := |store|, timestamp := now);
    store + [sealed.(hash := HashEntry(h, sealed))]
  }

  datatype Draft = Draft(entry: Entry, now: int)

  function CachedRun(h: Entry -> string, drafts: seq<Draft>): LedgerState {
    if drafts == [] then EMPTY_LEDGER
    else var d := drafts[|drafts| - 1]; Appended(h, CachedRun(h, drafts[..|drafts| - 1]), d.entry, d.now)
  }

  function PlainRun(h: Entry -> string, drafts: seq<Draft>): seq<Entry> {
    if drafts == [] then []
    else var d := drafts[|drafts| - 1]; PlainAppended(h, PlainRun(h, drafts[..|drafts| - 1]), d.entry, d.now)
  }

  /** The cached append refines the plain one: for every run of appends with the same clock readings
      both hold the same entries, and every such ledger verifies with no breaks. */
  lemma {:induction false} CachedRefinesPlain(h: Entry -> string, drafts: seq<Draft>)
    ensures CachedRun(h, drafts).entries == PlainRun(h, drafts)
    ensures WellFormed(h, CachedRun(h, drafts))
    ensures IsVerification(PlainRun(h, drafts), true, 0)
    ensures |PlainRun(h, drafts)| == |drafts|
  {
    if drafts == [] {
      assert BadLinks([]) == {};
    } else {
      var init, d := drafts[..|drafts| - 1], drafts[|drafts| - 1];
      CachedRefinesPlain(h, init);
      AppendKeepsWellFormed(h, CachedRun(h, init), d.entry, d.now);
      NoBadLinks(PlainRun(h, drafts));
    }
  }

  datatype AppendReply = Stored(entry: Entry) | Rejected(breaks: nat)

  class LedgerCatalog {
    const hash: Entry -> string
    var store: seq<Entry>

    /** A store loaded from disk may hold anything. */
    constructor (hash: Entry -> string, loaded: seq<Entry>)
      ensures this.hash == hash && store == loaded
    {
      this.hash := hash;
      store := loaded;
    }

    method AppendLedger(entry: Entry, now: int) returns (en: Entry)
      modifies this
      ensures store == PlainAppended(hash, old(store), entry, now) == old(store) + [en]
    {
      en := entry;
      if |store| == 0 {
        en := en.(prevHash := GENESIS);
      } else {
        en := en.(prevHash := store[|store| - 1].hash);
      }
      en := en.(index := |store|);
      en := en.(timestamp := now);
      en := en.(hash := hash(en.(hash := "", prevHash := "")));
      store := store + [en];
    }

    /** The `/append` endpoint: a valid chain grows by one entry and stays valid, a broken one is left alone. */
    method HandleAppend(entry: Entry, now: int) returns (reply: AppendReply)
      modifies this
      ensures old(Linked(store)) ==>
                && reply.Stored? && store == old(store) + [reply.entry]
                && store == PlainAppended(hash, old(store), entry, now)
                && Linked(store)
      ensures !old(Linked(store)) ==>
                store == old(store) && reply == Rejected(if HeadOk(store) then |BadLinks(store)| else 0)
    {
      var ok, breaks := VerifyExport(store);
      if !ok {
        return Rejected(breaks);
      }
      ghost var before := store;
      var en := AppendLedger(entry, now);
      forall i | 0 < i < |store| ensures LinkOk(store, i) {
        if i < |before| {
          assert LinkOk(before, i);
        }
      }
      return Stored(en);
    }
  }
}
