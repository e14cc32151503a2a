/** scheduler.js: the change detector. Each cycle fetches the newest
    collection, compares its id with the id in the state file, and on novelty
    sends one Telegram alert and then overwrites the state file with the
    fetched record. Send and write failures are both swallowed. */
module Scheduler {
  import opened Text
  import opened FileHandler
  import opened Ortak

  /** The key loadStoredId reads from the parsed state file. */
  const StoredKey := "id"

  function LinkLine(base: string, c: Collection): string
  {
    "Link: " + LinkTarget(base, c) + "\n"
  }

  function HomeLine(base: string): string { "Homepage: " + base }

  /** The alert text for collection c under the base URL `base`. */
  function AlertText(base: string, c: Collection): (m: string)
  {
    Banner + NameLine(c) + IdLine(c) + LinkLine(base, c) + HomeLine(base)
  }

  /** The alert starts with the banner, names the collection, carries its id
      in decimal, links to its item page, and ends with the homepage. */
  lemma AlertMentions(base: string, c: Collection)
    ensures Banner <= AlertText(base, c)
    ensures IsInfix(NameLine(c), AlertText(base, c))
    ensures IsInfix(IdLine(c), AlertText(base, c))
    ensures IsInfix(LinkLine(base, c), AlertText(base, c))
    ensures var m := AlertText(base, c); var h := HomeLine(base);
      |h| <= |m| && m[|m| - |h|..] == h
  {
    var name, id, link, home := NameLine(c), IdLine(c), LinkLine(base, c), HomeLine(base);
    var m := AlertText(base, c);
    assert m == Banner + name + (id + link + home);
    InfixOfConcat(Banner, name, id + link + home);
    assert m == (Banner + name) + id + (link + home);
    InfixOfConcat(Banner + name, id, link + home);
    assert m == (Banner + name + id) + link + home;
    InfixOfConcat(Banner + name + id, link, home);
    assert m == (Banner + name + id + link) + home;
  }

  /** One processData cycle: the new world and how its promise settles. */
  function Cycle(w: World, path: string, base: string, t: Tick): (World, Outcome)
  {
    match FetchLatestCollection(t.response)
    case None => (w, Resolved)
    case Some(item) =>
      match LoadId(w.files, path, StoredKey)
      case ReadThrew => (w, Rejected)
      case Loaded(stored) =>
        if IsNew(item.id, stored) then
          (World(Write(w.files, path, Json(ToRecord(item)), t.writeOk),
                 w.outbox + [Alert(AlertText(base, item), t.sendOk)]),
           Resolved)
        else (w, Resolved)
  }

  /** startScheduler: cycles one after another, never overlapping. A rejected
      processData promise is unhandled, which ends the Node.js process, so no
      further cycle runs after it. */
  function Run(w: World, path: string, base: string, ticks: seq<Tick>): (World, Outcome)
    decreases |ticks|
  {
    if ticks == [] then (w, Resolved)
    else
      var step := Cycle(w, path, base, ticks[0]);
      if step.1 == Rejected then step else Run(step.0, path, base, ticks[1..])
  }

  class OrtakScheduler {
    const jsonDb: string
    const baseUrl: string
    const disk: FileStore<Record>
    var outbox: seq<Alert>

    constructor (jsonDb: string, baseUrl: string, disk: FileStore<Record>)
      ensures this.jsonDb == jsonDb && this.baseUrl == baseUrl && this.disk == disk
      ensures outbox == []
    {
      this.jsonDb := jsonDb;
      this.baseUrl := baseUrl;
      this.disk := disk;
      outbox := [];
    }

    function State(): World
      reads this, disk
    {
      World(disk.files, outbox)
    }

    /** sendTelegramMessage: one send attempt; a failure is caught here. */
    method SendTelegramMessage(message: string, ok: bool)
      modifies this`outbox
      ensures outbox == old(outbox) + [Alert(message, ok)]
    {
      outbox := outbox + [Alert(message, ok)];
    }

    /** loadStoredId: `readFile(JSON_DB)?.id`. */
    method LoadStoredId() returns (r: Loaded)
      ensures r == LoadId(disk.files, jsonDb, StoredKey)
    {
      var fileData := disk.ReadFile(jsonDb);
      match fileData {
        case Missing => r := Loaded(None);
        case Parsed(rec) => r := Loaded(if StoredKey in rec then Some(rec[StoredKey]) else None);
        case Unparsable => r := ReadThrew;
      }
    }

    /** saveLatestItem: the whole fetched record, through writeToFile. */
    method SaveLatestItem(latestItem: Collection, ok: bool)
      modifies disk
      ensures disk.files == Write(old(disk.files), jsonDb, Json(ToRecord(latestItem)), ok)
    {
      disk.WriteToFile(Json(ToRecord(latestItem)), jsonDb, ok);
    }

    method ProcessData(t: Tick) returns (outcome: Outcome)
      modifies this`outbox, disk
      ensures (State(), outcome) == Cycle(old(State()), jsonDb, baseUrl, t)
    {
      var latestItem := FetchLatestCollection(t.response);
      if latestItem.None? {
        return Resolved;
      }
      var item := latestItem.value;
      var storedId := LoadStoredId();
      if storedId.ReadThrew? {
        return Rejected;
      }
      if IsNew(item.id, storedId.id) {
        SendTelegramMessage(AlertText(baseUrl, item), t.sendOk);
        SaveLatestItem(item, t.writeOk);
      }
      return Resolved;
    }

    /** startScheduler over the sequence of cycles the timer triggers. */
    method StartScheduler(ticks: seq<Tick>) returns (outcome: Outcome)
      modifies this`outbox, disk
      ensures (State(), outcome) == Run(old(State()), jsonDb, baseUrl, ticks)
    {
      outcome := Resolved;
      var i := 0;
      while i < |ticks|
        invariant 0 <= i <= |ticks| && outcome == Resolved
        invariant Run(old(State()), jsonDb, baseUrl, ticks) == Run(State(), jsonDb, baseUrl, ticks[i..])
      {
        assert ticks[i..][0] == ticks[i] && ticks[i..][1..] == ticks[i + 1..];
        ghost var before := State();
        outcome := ProcessData(ticks[i]);
        assert Run(before, jsonDb, baseUrl, ticks[i..])
          == if outcome == Rejected then (State(), outcome) else Run(State(), jsonDb, baseUrl, ticks[i + 1..]);
        if outcome == Rejected {
          return;
        }
        i := i + 1;
      }
    }
  }

  /** A failed fetch (thrown call, non-ok status, non-zero code, empty list)
      sends nothing and writes nothing. */
  lemma NoItemNoEffect(w: World, path: string, base: string, t: Tick)
    requires !Accepted(t.response) || |t.response.items| == 0
    ensures Cycle(w, path, base, t) == (w, Resolved)
  {
  }

  /** A new collection is announced once and then saved as the whole record,
      whether or not the send succeeded; a failed write leaves the old file. */
  lemma AnnouncesWhenNew(w: World, path: string, base: string, t: Tick, c: Collection, stored: Option<Field>)
    requires FetchLatestCollection(t.response) == Some(c)
    requires LoadId(w.files, path, StoredKey) == Loaded(stored)
    requires IsNew(c.id, stored)
    ensures var (w', o) := Cycle(w, path, base, t);
      o == Resolved
      && w'.outbox == w.outbox + [Alert(AlertText(base, c), t.sendOk)]
      && w'.files == (if t.writeOk then w.files[path := Json(ToRecord(c))] else w.files)
  {
  }

  /** A collection that is not newer than a truthy stored id changes nothing. */
  lemma SilentWhenNotNew(w: World, path: string, base: string, t: Tick, c: Collection, stored: Option<Field>)
    requires FetchLatestCollection(t.response) == Some(c)
    requires LoadId(w.files, path, StoredKey) == Loaded(stored)
    requires !IsNew(c.id, stored)
    ensures Truthy(stored)
    ensures stored.value.Num? ==> c.id <= stored.value.n
    ensures Cycle(w, path, base, t) == (w, Resolved)
  {
  }

  /** A state file that JSON.parse rejects makes every cycle that fetched an
      item reject before anything is sent. */
  lemma UnparsableStateRejects(w: World, path: string, base: string, t: Tick)
    requires path in w.files && w.files[path].Raw?
    requires FetchLatestCollection(t.response).Some?
    ensures Cycle(w, path, base, t) == (w, Rejected)
  {
  }

  /** After an announcement, the same collection is announced again next
      cycle exactly when the save did not persist a truthy id: the write
      failed, or the id is 0. */
  lemma ReannouncedIffNotSaved(w: World, path: string, base: string, t1: Tick, t2: Tick, c: Collection, stored: Option<Field>)
    requires FetchLatestCollection(t1.response) == Some(c)
    requires FetchLatestCollection(t2.response) == Some(c)
    requires LoadId(w.files, path, StoredKey) == Loaded(stored)
    requires IsNew(c.id, stored)
    ensures var w1 := Cycle(w, path, base, t1).0;
      (|Cycle(w1, path, base, t2).0.outbox| == |w1.outbox| + 1) <==> (!t1.writeOk || c.id == 0)
  {
    var w1 := Cycle(w, path, base, t1).0;
    if t1.writeOk {
      SavedIdReadsBack(w.files, path, c);
    }
  }

  /** Idempotence: a second cycle that fetches the same collection after a
      successful first one sends nothing and writes nothing, unless the id is 0. */
  lemma SecondCycleSilent(w: World, path: string, base: string, t1: Tick, t2: Tick, c: Collection)
    requires FetchLatestCollection(t1.response) == Some(c)
    requires FetchLatestCollection(t2.response) == Some(c)
    requires t1.writeOk && c.id != 0
    requires Cycle(w, path, base, t1).1 == Resolved
    ensures var w1 := Cycle(w, path, base, t1).0;
      Cycle(w1, path, base, t2) == (w1, Resolved)
  {
    var w1 := Cycle(w, path, base, t1).0;
    if w1 != w {
      SavedIdReadsBack(w.files, path, c);
    }
  }

  /** Each cycle sends at most one alert and never retracts one. */
  lemma {:induction false} RunOutboxGrows(w: World, path: string, base: string, ticks: seq<Tick>)
    ensures var w' := Run(w, path, base, ticks).0;
      w.outbox <= w'.outbox && |w'.outbox| <= |w.outbox| + |ticks|
    decreases |ticks|
  {
    if ticks != [] {
      var step := Cycle(w, path, base, ticks[0]);
      if step.1 != Rejected {
        RunOutboxGrows(step.0, path, base, ticks[1..]);
      }
    }
  }

  /** Restart safety: once the state file holds an id the fetched collection
      does not exceed, any number of cycles that fetch that collection (or
      nothing) send nothing and leave the file as it is. */
  lemma {:induction false} RunSameItemSilent(w: World, path: string, base: string, ticks: seq<Tick>, c: Collection, stored: Option<Field>)
    requires LoadId(w.files, path, StoredKey) == Loaded(stored) && !IsNew(c.id, stored)
    requires forall i :: 0 <= i < |ticks| ==> FetchLatestCollection(ticks[i].response) in {None, Some(c)}
    ensures Run(w, path, base, ticks) == (w, Resolved)
    decreases |ticks|
  {
    if ticks != [] {
      assert FetchLatestCollection(ticks[0].response) in {None, Some(c)};
      RunSameItemSilent(w, path, base, ticks[1..], c, stored);
    }
  }

  /** The persisted id only rises: from a positive stored id, whatever the
      marketplace returns and whichever sends and writes fail, the id in the
      state file afterwards is a number at least as large. */
  lemma {:induction false} RunStoredIdRises(w: World, path: string, base: string, ticks: seq<Tick>, n: int)
    requires LoadId(w.files, path, StoredKey) == Loaded(Some(Num(n))) && n > 0
    ensures var after := LoadId(Run(w, path, base, ticks).0.files, path, StoredKey);
      after.Loaded? && after.id.Some? && after.id.value.Num? && after.id.value.n >= n
    decreases |ticks|
  {
    if ticks != [] {
      var step := Cycle(w, path, base, ticks[0]);
      var item := FetchLatestCollection(ticks[0].response);
      if item.Some? && IsNew(item.value.id, Some(Num(n))) && ticks[0].writeOk {
        SavedIdReadsBack(w.files, path, item.value);
        RunStoredIdRises(step.0, path, base, ticks[1..], item.value.id);
      } else {
        RunStoredIdRises(step.0, path, base, ticks[1..], n);
      }
    }
  }

  /** A corrupt state file is never repaired: no cycle sends or writes. */
  lemma {:induction false} RunOnUnparsableState(w: World, path: string, base: string, ticks: seq<Tick>)
    requires path in w.files && w.files[path].Raw?
    ensures Run(w, path, base, ticks).0 == w
    decreases |ticks|
  {
    if ticks != [] {
      RunOnUnparsableState(w, path, base, ticks[1..]);
    }
  }

  /** First run with no state file: the collection with id 100 is announced
      and the file is created holding id 100. */
  lemma FirstRunScenario(files: Files<Record>, path: string, base: string)
    requires path !in files
    ensures var c := Collection(100, "nhl", "NHL Drop", map[]);
      var (w', o) := Cycle(World(files, []), path, base, Tick(Reply(true, 0, [c]), true, true));
      o == Resolved && w'.outbox == [Alert(AlertText(base, c), true)]
      && LoadId(w'.files, path, StoredKey) == Loaded(Some(Num(100)))
  {
  }

  /** Stored id 100, fetched id 101: one alert carrying "ID: 101" and the
      link to slug "nba", and the file now holds id 101. */
  lemma NewerIdScenario(base: string, path: string, prev: Collection)
    requires prev.id == 100
    ensures var c := Collection(101, "nba", "NBA Drop", map[]);
      var (w', o) := Cycle(World(map[path := Json(ToRecord(prev))], []), path, base, Tick(Reply(true, 0, [c]), true, true));
      o == Resolved && |w'.outbox| == 1
      && IsInfix(IdLine(c), w'.outbox[0].text) && IntText(c.id) == "101"
      && IsInfix(LinkLine(base, c), w'.outbox[0].text) && c.slug == "nba"
      && LoadId(w'.files, path, StoredKey) == Loaded(Some(Num(101)))
  {
    var c := Collection(101, "nba", "NBA Drop", map[]);
    AlertMentions(base, c);
    assert IntText(101) == "101" by {
      assert NatText(10) == "10";
    }
  }

  /** Stored id 100, fetched id 100 again: nothing is sent or written. */
  lemma SameIdScenario(base: string, path: string, c: Collection, outbox: seq<Alert>)
    requires c.id == 100
    ensures var w := World(map[path := Json(ToRecord(c))], outbox);
      Cycle(w, path, base, Tick(Reply(true, 0, [c]), true, true)) == (w, Resolved)
  {
  }

  /** Application code 1: nothing is sent or written, and the cycle resolves. */
  lemma BadCodeScenario(w: World, base: string, path: string, items: seq<Collection>, sendOk: bool, writeOk: bool)
    ensures Cycle(w, path, base, Tick(Reply(true, 1, items), sendOk, writeOk)) == (w, Resolved)
  {
  }
}
