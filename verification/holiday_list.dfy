/**
 * The holiday records the clients hold and the list operations their state
 * updates are built from.
 */
module HolidayList {
  import opened Fetch

  /**
   * A holiday record as the server sends it. The JSON key `_id` is `id` here.
   * The clients never write `_id`, `name` or `likes`, so those are constants;
   * `celebrated` is the one field a client overwrites in place.
   */
  class Holiday {
    const id: string
    const name: string
    const likes: int
    var celebrated: bool

    constructor (id: string, name: string, likes: int, celebrated: bool)
      ensures this.id == id && this.name == name && this.likes == likes
      ensures this.celebrated == celebrated
    {
      this.id := id;
      this.name := name;
      this.likes := likes;
      this.celebrated := celebrated;
    }
  }

  /** The parsed body of a reply to `PUT /holidays/:id`: the updated record's `_id` and `celebrated`. */
  datatype UpdatedHoliday = UpdatedHoliday(id: string, celebrated: bool)

  /** `holidays.filter(holiday => holiday._id !== id)`: the records kept after a delete. */
  function WithoutId(hs: seq<Holiday>, id: string): (r: seq<Holiday>)
    ensures |r| <= |hs|
    ensures forall j :: 0 <= j < |r| ==> r[j] in hs && r[j].id != id
    ensures forall j :: 0 <= j < |hs| && hs[j].id != id ==> hs[j] in r
    ensures (forall j :: 0 <= j < |hs| ==> hs[j].id != id) ==> r == hs
  {
    if hs == [] then []
    else if hs[0].id != id then [hs[0]] + WithoutId(hs[1..], id)
    else WithoutId(hs[1..], id)
  }

  /** `holidays.findIndex(holiday => holiday._id === id)`: the first matching position, or -1. */
  function FindIndex(hs: seq<Holiday>, id: string): (i: int)
    ensures -1 <= i < |hs|
    ensures i == -1 <==> forall j :: 0 <= j < |hs| ==> hs[j].id != id
    ensures 0 <= i ==> hs[i].id == id && forall j :: 0 <= j < i ==> hs[j].id != id
  {
    if hs == [] then -1
    else if hs[0].id == id then 0
    else
      var k := FindIndex(hs[1..], id);
      if k == -1 then -1 else k + 1
  }

  /**
   * Filtering distributes over concatenation, so the records that survive a
   * delete keep their relative order.
   */
  lemma {:induction false} WithoutIdConcat(a: seq<Holiday>, b: seq<Holiday>, id: string)
    ensures WithoutId(a + b, id) == WithoutId(a, id) + WithoutId(b, id)
  {
    if a == [] {
      assert a + b == b;
    } else {
      assert (a + b)[1..] == a[1..] + b;
      WithoutIdConcat(a[1..], b, id);
    }
  }

  /** Each record is kept or dropped on its own: together with WithoutIdConcat this determines the filter. */
  lemma WithoutIdSingle(h: Holiday, id: string)
    ensures WithoutId([h], id) == if h.id == id then [] else [h]
  {
    assert [h][1..] == [];
  }

  /** Deleting the same id twice is the same as deleting it once. */
  lemma {:induction false} WithoutIdIdempotent(hs: seq<Holiday>, id: string)
    ensures WithoutId(WithoutId(hs, id), id) == WithoutId(hs, id)
  {
    if hs != [] {
      WithoutIdIdempotent(hs[1..], id);
      if hs[0].id != id {
        assert ([hs[0]] + WithoutId(hs[1..], id))[1..] == WithoutId(hs[1..], id);
      }
    }
  }

  /** A delete removes exactly the records carrying the id: the list shrinks by their number. */
  lemma {:induction false} WithoutIdLength(hs: seq<Holiday>, id: string)
    ensures |WithoutId(hs, id)| == |hs| - CountId(hs, id)
  {
    if hs != [] {
      WithoutIdLength(hs[1..], id);
    }
  }

  /** The number of records carrying `id`. */
  function CountId(hs: seq<Holiday>, id: string): (n: nat)
    ensures n <= |hs|
    ensures n == 0 <==> forall j :: 0 <= j < |hs| ==> hs[j].id != id
  {
    if hs == [] then 0
    else (if hs[0].id == id then 1 else 0) + CountId(hs[1..], id)
  }

  /** A record just prepended with a fresh id is removed again by deleting that id. */
  lemma AddThenDelete(h: Holiday, hs: seq<Holiday>)
    requires forall j :: 0 <= j < |hs| ==> hs[j].id != h.id
    ensures WithoutId([h] + hs, h.id) == hs
  {
    assert ([h] + hs)[1..] == hs;
  }

  /** A record just prepended is the first match for its id. */
  lemma AddThenFind(h: Holiday, hs: seq<Holiday>)
    ensures FindIndex([h] + hs, h.id) == 0
  {
  }

  /** After a delete no record matches the id, so a later toggle reply for it finds no index. */
  lemma DeleteThenFind(hs: seq<Holiday>, id: string)
    ensures FindIndex(WithoutId(hs, id), id) == -1
  {
  }

  /**
   * The holiday list after a `getHolidays` reply, as the code is written:
   * `.then(data => data.json(), err => console.log(...))` turns a failed
   * request into a fulfilled promise of `undefined`, which the next `.then`
   * stores as the new list. `None` is that `undefined` list.
   */
  function ReloadedAsWritten(prior: seq<Holiday>, reply: FetchReply<seq<Holiday>>): (r: Option<seq<Holiday>>)
    ensures reply.Parsed? ==> r == Some(reply.value)
    ensures reply.ParseError? ==> r == Some(prior)
    ensures reply.NetworkError? ==> r.None?
  {
    match reply
    case NetworkError => None
    case ParseError => Some(prior)
    case Parsed(data) => Some(data)
  }

  /** A failed request wipes out the list the client held, whatever it was. */
  lemma ReloadAsWrittenLosesList(prior: seq<Holiday>)
    ensures ReloadedAsWritten(prior, NetworkError) != Some(prior)
  {
  }

  /**
   * The holiday list after a `getHolidays` reply, as intended: a parsed reply
   * replaces the list wholesale and any failure only logs.
   */
  function Reloaded(prior: seq<Holiday>, reply: FetchReply<seq<Holiday>>): (r: seq<Holiday>)
    ensures reply.Parsed? ==> r == reply.value
    ensures !reply.Parsed? ==> r == prior
  {
    if reply.Parsed? then reply.value else prior
  }

  /** A successful reload does not depend on, or merge with, the list held before. */
  lemma ReloadedIgnoresPrior(a: seq<Holiday>, b: seq<Holiday>, data: seq<Holiday>)
    ensures Reloaded(a, Parsed(data)) == Reloaded(b, Parsed(data)) == data
  {
  }
}
