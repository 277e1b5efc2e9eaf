/** The reset as the store file writes it. When nothing is stored, `DB` is
    the seed object itself, and `push` grows the seed's own arrays; a reset
    assigns the seed back to `DB`, so it brings back everything pushed since
    start-up. Only the two collections the counterexample needs are kept,
    each as the list of its records' ids (enquiries) or actions (log). The
    intended reset, which rebuilds the seed, is `DataContext.Context.ResetData`. */
module ResetAliasing {

  /** A JavaScript array: one heap object that `push` grows in place. */
  class JsArray {
    var items: seq<string>

    constructor(items0: seq<string>)
      ensures items == items0
    {
      items := items0;
    }

    method Push(x: string)
      modifies this
      ensures items == old(items) + [x]
    {
      items := items + [x];
    }
  }

  /** A store object: each collection is a reference to an array. */
  class Store {
    const enquiries: JsArray
    const activityLog: JsArray

    constructor(e: JsArray, l: JsArray)
      ensures enquiries == e && activityLog == l
    {
      enquiries := e;
      activityLog := l;
    }

    /** Two different collections are two different arrays. */
    predicate Valid()
    {
      enquiries != activityLog
    }
  }

  /** The store file's module state: `DB` and the seed it falls back to. */
  class StoreModule {
    var db: Store
    const seed: Store

    /** Loading with nothing stored: `DB` is the seed object, not a copy. */
    constructor(seed0: Store)
      requires seed0.Valid()
      ensures seed == seed0 && db == seed0
    {
      seed := seed0;
      db := seed0;
    }

    /** `addEnquiry`: a push into the current store's enquiry array. */
    method AddEnquiry(id: string)
      requires db.Valid()
      modifies db.enquiries
      ensures db.enquiries.items == old(db.enquiries.items) + [id]
      ensures db.activityLog.items == old(db.activityLog.items)
    {
      db.enquiries.Push(id);
    }

    /** `resetData` once confirmed: `DB = mockData`, then the reset entry is
        pushed into that object's log. */
    method Reset()
      requires seed.Valid()
      modifies this, seed.activityLog
      ensures db == seed
      ensures seed.activityLog.items == old(seed.activityLog.items) + ["System Reset"]
      ensures seed.enquiries.items == old(seed.enquiries.items)
    {
      db := seed;
      db.activityLog.Push("System Reset");
    }
  }

  /** From a fresh start, one added enquiry and a reset: the enquiry is still
      there, and a second reset leaves two reset entries after the seed's log,
      where a reset to the default data would leave the seed's enquiries and
      one reset entry. */
  method ResetKeepsWritesAsWritten(seedEnquiries: seq<string>, seedLog: seq<string>, id: string)
    returns (enquiries: seq<string>, log: seq<string>)
    ensures enquiries == seedEnquiries + [id] && enquiries != seedEnquiries
    ensures log == seedLog + ["System Reset", "System Reset"]
  {
    var e := new JsArray(seedEnquiries);
    var l := new JsArray(seedLog);
    var seed := new Store(e, l);
    var m := new StoreModule(seed);
    m.AddEnquiry(id);
    m.Reset();
    m.Reset();
    enquiries := m.db.enquiries.items;
    log := m.db.activityLog.items;
    assert |enquiries| == |seedEnquiries| + 1;
  }
}
