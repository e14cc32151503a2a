/** Domain values shared by the two schedulers (scheduler.js and the older
    index.js): the marketplace response envelope, the collection record that
    is persisted, the alert log and the novelty rule. */
module Ortak {
  import opened Text
  import opened FileHandler

  datatype Option<T> = None | Some(value: T)

  /** A scalar of a persisted JSON object. */
  datatype Field = Num(n: int) | Str(s: string)

  /** A JSON object as parsed back from the state file. */
  type Record = map<string, Field>

  /** One entry of the marketplace's collection list: its id, slug and name,
      and whatever other scalar fields the marketplace sends along. */
  datatype Collection = Collection(id: int, slug: string, name: string, extra: Record)

  /** The object JSON.stringify(latestItem) writes: every field of the item.
      The named fields win over same-named entries of `extra`. */
  function ToRecord(c: Collection): (r: Record)
    ensures "id" in r && r["id"] == Num(c.id)
    ensures "slug" in r && r["slug"] == Str(c.slug)
    ensures "name" in r && r["name"] == Str(c.name)
    ensures forall k :: k in c.extra ==> k in r
    ensures forall k :: k in c.extra && k !in {"id", "slug", "name"} ==> r[k] == c.extra[k]
    ensures forall k :: k in r ==> k in c.extra || k in {"id", "slug", "name"}
  {
    c.extra["id" := Num(c.id)]["slug" := Str(c.slug)]["name" := Str(c.name)]
  }

  /** The outcome of one HTTP call: fetch or response.json() threw, or a reply
      came back with its transport status, its application code and its items. */
  datatype Response<T> = Threw | Reply(ok: bool, code: int, items: seq<T>)

  predicate Accepted<T>(r: Response<T>)
  {
    r.Reply? && r.ok && r.code == 0
  }

  /** fetchLatestCollection: the first item of an accepted reply; null on a
      thrown call, a non-ok status or a non-zero code; undefined on an empty
      item list. Both of the last are None here, since the caller only tests
      the result for truthiness. */
  function FetchLatestCollection(r: Response<Collection>): (item: Option<Collection>)
    ensures item.Some? <==> Accepted(r) && |r.items| > 0
    ensures item.Some? ==> item.value == r.items[0]
  {
    if Accepted(r) && |r.items| > 0 then Some(r.items[0]) else None
  }

  /** JavaScript truthiness of a stored id: undefined, 0 and "" are falsy. */
  predicate Truthy(f: Option<Field>)
  {
    match f
    case None => false
    case Some(Num(n)) => n != 0
    case Some(Str(s)) => s != ""
  }

  /** `latestId > storedId` for a numeric latestId. A string stored id is
      taken as a non-numeric one, which JavaScript compares as NaN, so the
      comparison is false. */
  predicate Exceeds(latestId: int, stored: Field)
  {
    match stored
    case Num(n) => latestId > n
    case Str(_) => false
  }

  /** The novelty rule of both schedulers: `!storedId || latestId > storedId`. */
  predicate IsNew(latestId: int, stored: Option<Field>)
  {
    !Truthy(stored) || Exceeds(latestId, stored.value)
  }

  /** The novelty rule on numeric ids, both directions: a collection is new
      exactly when no id is stored, the stored id is 0, or the fetched id is
      strictly larger. */
  lemma IsNewOnNumbers(latestId: int, stored: Option<int>)
    ensures IsNew(latestId, if stored.Some? then Some(Num(stored.value)) else None)
        <==> stored == None || stored == Some(0) || latestId > stored.value
  {
  }

  /** What loadStoredId produced: a value (possibly undefined) or a throw. */
  datatype Loaded = Loaded(id: Option<Field>) | ReadThrew

  /** The field `key` of the object stored at `path`: undefined for a missing
      file or a missing field, a throw for content that does not parse. */
  function LoadId(files: Files<Record>, path: string, key: string): (r: Loaded)
    ensures r == ReadThrew <==> path in files && files[path].Raw?
    ensures r.Loaded? && r.id.Some? <==> path in files && files[path].Json? && key in files[path].doc
    ensures r.Loaded? && r.id.Some? ==> r.id.value == files[path].doc[key]
  {
    match Read(files, path)
    case Missing => Loaded(None)
    case Parsed(rec) => Loaded(if key in rec then Some(rec[key]) else None)
    case Unparsable => ReadThrew
  }

  /** One Telegram send: the message text and whether delivery succeeded
      (a failure is caught and logged by the sender, never rethrown). */
  datatype Alert = Alert(text: string, delivered: bool)

  /** What the environment decides for one cycle: the fetch outcome, whether
      the Telegram send succeeds, whether the state file write succeeds. */
  datatype Tick = Tick(response: Response<Collection>, sendOk: bool, writeOk: bool)

  /** Everything one cycle can affect: the files and the messages sent. */
  datatype World = World(files: Files<Record>, outbox: seq<Alert>)

  /** How the promise returned by processData settles. */
  datatype Outcome = Resolved | Rejected

  /** The first line of every alert. */
  const Banner := "\U{1F6A8} Alert: New Collection on Ortak!\n"

  function NameLine(c: Collection): string { "Name: " + c.name + "\n" }

  function IdLine(c: Collection): string { "ID: " + IntText(c.id) + "\n" }

  /** The collection's item page on the marketplace. */
  function LinkTarget(base: string, c: Collection): string
  {
    base + "/collections/" + c.slug + "/nfts"
  }

  /** After the fetched record is saved, reading its "id" key gives its id. */
  lemma SavedIdReadsBack(files: Files<Record>, path: string, c: Collection)
    ensures LoadId(Write(files, path, Json(ToRecord(c)), true), path, "id") == Loaded(Some(Num(c.id)))
  {
  }
}
