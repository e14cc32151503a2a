/** index.js: the earlier version of the change detector. It keeps the same
    cycle as scheduler.js, with three differences: it reads the stored id under
    the key "latestId" while saving the fetched item (whose id is under "id"),
    it writes with fs.writeFileSync directly, so a failed write throws out of
    processData, and its alert has no homepage line. */
module LegacyIndex {
  import opened Text
  import opened FileHandler
  import opened Ortak

  /** The key loadStoredId reads from the parsed state file. */
  const StoredKey := "latestId"

  function AlertText(base: string, c: Collection): (m: string)
  {
    Banner + "\n" + NameLine(c) + IdLine(c) + "Link: " + LinkTarget(base, c)
  }

  /** The alert starts with the banner and a blank line, names the
      collection, carries its id and ends with the link to its item page. */
  lemma AlertMentions(base: string, c: Collection)
    ensures Banner + "\n" <= AlertText(base, c)
    ensures IsInfix(NameLine(c), AlertText(base, c))
    ensures IsInfix(IdLine(c), AlertText(base, c))
    ensures var m := AlertText(base, c); var l := "Link: " + LinkTarget(base, c);
      |l| <= |m| && m[|m| - |l|..] == l
  {
    var head, name, id, link := Banner + "\n", NameLine(c), IdLine(c), "Link: " + LinkTarget(base, c);
    var m := AlertText(base, c);
    assert m == head + name + (id + link);
    InfixOfConcat(head, name, id + link);
    assert m == (head + name) + id + link;
    InfixOfConcat(head + name, id, link);
  }

  /** One processData cycle. The alert goes out before the write; a write
      that throws rejects the cycle after the alert was sent. */
  function Cycle(w: World, path: string, base: string, t: Tick): (World, Outcome)
  {
    match FetchLatestCollection(t.response)
    case None => (w, Resolved)
    case Some(item) =>
      match LoadId(w.files, path, StoredKey)
      case ReadThrew => (w, Rejected)
      case Loaded(stored) =>
        if IsNew(item.id, stored) then
          (World(Write(w.files, path, Json(ToRecord(item)), t.writeOk),
                 w.outbox + [Alert(AlertText(base, item), t.sendOk)]),
           if t.writeOk then Resolved else Rejected)
        else (w, Resolved)
  }

  /** startScheduler: sequential cycles; an unhandled rejection ends the
      process. */
  function Run(w: World, path: string, base: string, ticks: seq<Tick>): (World, Outcome)
    decreases |ticks|
  {
    if ticks == [] then (w, Resolved)
    else
      var step := Cycle(w, path, base, ticks[0]);
      if step.1 == Rejected then step else Run(step.0, path, base, ticks[1..])
  }

  class OrtakScheduler {
    const jsonDb: string
    const baseUrl: string
    const disk: FileStore<Record>
    var outbox: seq<Alert>

    constructor (jsonDb: string, baseUrl: string, disk: FileStore<Record>)
      ensures this.jsonDb == jsonDb && this.baseUrl == baseUrl && this.disk == disk
      ensures outbox == []
    {
      this.jsonDb := jsonDb;
      this.baseUrl := baseUrl;
      this.disk := disk;
      outbox := [];
    }

    function State(): World
      reads this, disk
    {
      World(disk.files, outbox)
    }

    method SendTelegramMessage(message: string, ok: bool)
      modifies this`outbox
      ensures outbox == old(outbox) + [Alert(message, ok)]
    {
      outbox := outbox + [Alert(message, ok)];
    }

    /** loadStoredId: null without a file, else the "latestId" field of the
        parsed content; JSON.parse throws on content that is not JSON. */
    method LoadStoredId() returns (r: Loaded)
      ensures r == LoadId(disk.files, jsonDb, StoredKey)
    {
      if jsonDb !in disk.files {
        return Loaded(None);
      }
      match disk.files[jsonDb] {
        case Json(rec) => r := Loaded(if StoredKey in rec then Some(rec[StoredKey]) else None);
        case Raw(_) => r := ReadThrew;
      }
    }

    /** saveLatestItem: fs.writeFileSync of the fetched item, uncaught. */
    method SaveLatestItem(latestItem: Collection, ok: bool) returns (outcome: WriteOutcome)
      modifies disk
      ensures disk.files == Write(old(disk.files), jsonDb, Json(ToRecord(latestItem)), ok)
      ensures outcome == (if ok then Written else WriteThrew)
    {
      outcome := disk.WriteFileSync(jsonDb, Json(ToRecord(latestItem)), ok);
    }

    method ProcessData(t: Tick) returns (outcome: Outcome)
      modifies this`outbox, disk
      ensures (State(), outcome) == Cycle(old(State()), jsonDb, baseUrl, t)
    {
      var latestItem := FetchLatestCollection(t.response);
      if latestItem.None? {
        return Resolved;
      }
      var item := latestItem.value;
      var storedId := LoadStoredId();
      if storedId.ReadThrew? {
        return Rejected;
      }
      if IsNew(item.id, storedId.id) {
        SendTelegramMessage(AlertText(baseUrl, item), t.sendOk);
        var written := SaveLatestItem(item, t.writeOk);
        if written == WriteThrew {
          return Rejected;
        }
      }
      return Resolved;
    }

    method StartScheduler(ticks: seq<Tick>) returns (outcome: Outcome)
      modifies this`outbox, disk
      ensures (State(), outcome) == Run(old(State()), jsonDb, baseUrl, ticks)
    {
      outcome := Resolved;
      var i := 0;
      while i < |ticks|
        invariant 0 <= i <= |ticks| && outcome == Resolved
        invariant Run(old(State()), jsonDb, baseUrl, ticks) == Run(State(), jsonDb, baseUrl, ticks[i..])
      {
        assert ticks[i..][0] == ticks[i] && ticks[i..][1..] == ticks[i + 1..];
        ghost var before := State();
        outcome := ProcessData(ticks[i]);
        assert Run(before, jsonDb, baseUrl, ticks[i..])
          == if outcome == Rejected then (State(), outcome) else Run(State(), jsonDb, baseUrl, ticks[i + 1..]);
        if outcome == Rejected {
          return;
        }
        i := i + 1;
      }
    }
  }

  /** A failed fetch sends nothing and writes nothing. */
  lemma NoItemNoEffect(w: World, path: string, base: string, t: Tick)
    requires !Accepted(t.response) || |t.response.items| == 0
    ensures Cycle(w, path, base, t) == (w, Resolved)
  {
  }

  /** With a truthy stored id, the cycle alerts and saves (when the write
      succeeds) exactly when the fetched id is larger; otherwise nothing
      happens, whatever the write would do. */
  lemma DecidesOnStoredId(w: World, path: string, base: string, t: Tick, c: Collection, n: int)
    requires FetchLatestCollection(t.response) == Some(c)
    requires LoadId(w.files, path, StoredKey) == Loaded(Some(Num(n))) && n != 0
    ensures c.id > n && t.writeOk ==>
      Cycle(w, path, base, t)
        == (World(w.files[path := Json(ToRecord(c))], w.outbox + [Alert(AlertText(base, c), t.sendOk)]), Resolved)
    ensures c.id <= n ==> Cycle(w, path, base, t) == (w, Resolved)
  {
  }

  /** A collection that is not new, against any stored latestId (a number or
      a string taken from the saved item's own fields), sends nothing and
      writes nothing, whatever the send and the write would do. */
  lemma SilentWhenNotNew(w: World, path: string, base: string, t: Tick, c: Collection, stored: Option<Field>)
    requires FetchLatestCollection(t.response) == Some(c)
    requires LoadId(w.files, path, StoredKey) == Loaded(stored)
    requires !IsNew(c.id, stored)
    ensures Truthy(stored)
    ensures stored.value.Num? ==> c.id <= stored.value.n
    ensures Cycle(w, path, base, t) == (w, Resolved)
  {
  }

  /** A failed Telegram send does not stop the save; a failed save rejects
      the cycle, after the alert went out, and leaves the file as it was. */
  lemma FailuresAfterAlert(w: World, path: string, base: string, t: Tick, c: Collection, stored: Option<Field>)
    requires FetchLatestCollection(t.response) == Some(c)
    requires LoadId(w.files, path, StoredKey) == Loaded(stored) && IsNew(c.id, stored)
    ensures var (w', o) := Cycle(w, path, base, t);
      w'.outbox == w.outbox + [Alert(AlertText(base, c), t.sendOk)]
      && (t.writeOk ==> o == Resolved && w'.files == w.files[path := Json(ToRecord(c))])
      && (!t.writeOk ==> o == Rejected && w'.files == w.files)
  {
  }

  /** The saved item is read back through "latestId", which it does not
      carry: the stored id reads as undefined. */
  lemma SavedItemReadsAbsent(files: Files<Record>, path: string, c: Collection)
    requires StoredKey !in c.extra
    ensures LoadId(Write(files, path, Json(ToRecord(c)), true), path, StoredKey) == Loaded(None)
  {
  }

  /** As written, the alert repeats: from a state file that is missing or has
      no "latestId", every cycle that fetches the same collection and saves it
      sends the same alert again, one per cycle. */
  lemma {:induction false} RunRepeatsAlert(w: World, path: string, base: string, ticks: seq<Tick>, c: Collection)
    requires StoredKey !in c.extra
    requires LoadId(w.files, path, StoredKey) == Loaded(None)
    requires forall i :: 0 <= i < |ticks| ==> FetchLatestCollection(ticks[i].response) == Some(c) && ticks[i].writeOk
    ensures var (w', o) := Run(w, path, base, ticks);
      o == Resolved && |w'.outbox| == |w.outbox| + |ticks|
      && w'.outbox[..|w.outbox|] == w.outbox
      && forall i :: 0 <= i < |ticks| ==> w'.outbox[|w.outbox| + i] == Alert(AlertText(base, c), ticks[i].sendOk)
    decreases |ticks|
  {
    if ticks != [] {
      assert FetchLatestCollection(ticks[0].response) == Some(c) && ticks[0].writeOk;
      var w1 := Cycle(w, path, base, ticks[0]).0;
      assert w1.outbox == w.outbox + [Alert(AlertText(base, c), ticks[0].sendOk)];
      SavedItemReadsAbsent(w.files, path, c);
      forall i | 0 <= i < |ticks[1..]|
        ensures FetchLatestCollection(ticks[1..][i].response) == Some(c) && ticks[1..][i].writeOk
      {
        assert ticks[1..][i] == ticks[i + 1];
      }
      RunRepeatsAlert(w1, path, base, ticks[1..], c);
      var w' := Run(w1, path, base, ticks[1..]).0;
      forall i | 0 <= i < |ticks|
        ensures w'.outbox[|w.outbox| + i] == Alert(AlertText(base, c), ticks[i].sendOk)
      {
        if i > 0 {
          assert w'.outbox[|w1.outbox| + (i - 1)] == Alert(AlertText(base, c), ticks[1..][i - 1].sendOk);
        } else {
          assert w'.outbox[..|w1.outbox|] == w1.outbox;
          assert w'.outbox[|w.outbox|] == w1.outbox[|w.outbox|];
        }
      }
      assert w'.outbox[..|w.outbox|] == w'.outbox[..|w1.outbox|][..|w.outbox|];
    }
  }
}
