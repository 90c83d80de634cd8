/** The per-room on-device stroke cache (apps/web/lib/utils/localStorage.ts):
    the strokes of room `r` live, as one list, under the key `strokes:r`. */
module LocalCache {
  import opened Base
  import opened Strokes
  import opened WebStorage

  /** The storage key of a room's stroke list. */
  function CacheKey(roomId: string): string {
    "strokes:" + roomId
  }

  /** Distinct rooms use distinct keys, and no room's key is the token's. */
  lemma CacheKeyInjective(a: string, b: string)
    ensures CacheKey(a) == CacheKey(b) <==> a == b
    ensures CacheKey(a) != "jwt"
  {
    if CacheKey(a) == CacheKey(b) {
      PrefixInjective("strokes:", a, b);
    }
    assert CacheKey(a)[0] == 's';
  }

  /** Reading the stroke list stored under a key: an absent or empty item
      reads as the empty list, and an item that is not a stroke list makes
      the parse throw (`None`). */
  function ReadList(st: Storage, key: string): (r: Option<seq<Stroke>>)
    ensures !Present(st, key) ==> r == Some([])
    ensures r.None? <==> Present(st, key) && st[key].Text?
  {
    if !Present(st, key) then Some([])
    else match st[key]
      case StrokeList(l) => Some(l)
      case Text(_) => None
  }

  /** `getFromLocal(roomId)`: the room's cached strokes; `None` when the
      parse throws. It reads only the room's own key, and what it returns is
      exactly the list stored there. */
  function GetFromLocal(st: Storage, roomId: string): (r: Option<seq<Stroke>>)
    ensures CacheKey(roomId) !in st ==> r == Some([])
    ensures r.Some? && Present(st, CacheKey(roomId)) ==> st[CacheKey(roomId)] == StrokeList(r.value)
    ensures forall st' :: CacheKey(roomId) in st' && CacheKey(roomId) in st && st'[CacheKey(roomId)] == st[CacheKey(roomId)] ==>
              ReadList(st', CacheKey(roomId)) == r
  {
    ReadList(st, CacheKey(roomId))
  }

  /** `saveToLocal(roomId, stroke)`: read the list, push, write it back.
      `None` models the parse throwing, in which case nothing is written. */
  function SaveToLocal(st: Storage, roomId: string, stroke: Stroke): (r: Option<Storage>)
    ensures r.Some? <==> GetFromLocal(st, roomId).Some?
    ensures r.Some? ==> GetFromLocal(r.value, roomId) == Some(GetFromLocal(st, roomId).value + [stroke])
    ensures r.Some? ==> SameExcept(r.value, st, CacheKey(roomId))
  {
    var key := CacheKey(roomId);
    match ReadList(st, key)
    case None => None
    case Some(l) => Some(st[key := StrokeList(l + [stroke])])
  }

  /** `clearLocal(roomId)`: remove the room's item. */
  function ClearLocal(st: Storage, roomId: string): (r: Storage)
    ensures GetFromLocal(r, roomId) == Some([])
    ensures CacheKey(roomId) !in r
    ensures SameExcept(r, st, CacheKey(roomId))
  {
    st - {CacheKey(roomId)}
  }

  /** Saving to or clearing one room leaves every other room's list, and the
      stored token, as they were. */
  lemma OtherRoomsUntouched(st: Storage, roomId: string, other: string, stroke: Stroke)
    requires other != roomId
    ensures SaveToLocal(st, roomId, stroke).Some? ==>
              GetFromLocal(SaveToLocal(st, roomId, stroke).value, other) == GetFromLocal(st, other)
    ensures GetFromLocal(ClearLocal(st, roomId), other) == GetFromLocal(st, other)
    ensures SaveToLocal(st, roomId, stroke).Some? ==>
              ("jwt" in SaveToLocal(st, roomId, stroke).value <==> "jwt" in st)
    ensures "jwt" in st && SaveToLocal(st, roomId, stroke).Some? ==>
              SaveToLocal(st, roomId, stroke).value["jwt"] == st["jwt"]
  {
    CacheKeyInjective(roomId, other);
    CacheKeyInjective(roomId, roomId);
  }

  /** Saving every stroke of a list, one by one. */
  function SaveAll(st: Storage, roomId: string, strokes: seq<Stroke>): Option<Storage>
    decreases |strokes|
  {
    if strokes == [] then Some(st)
    else match SaveToLocal(st, roomId, strokes[0])
      case None => None
      case Some(st') => SaveAll(st', roomId, strokes[1..])
  }

  /** Round trip: after saving a list of strokes, reading the room gives the
      earlier list followed by exactly those strokes, in order. Nothing is
      deduplicated. */
  lemma {:induction false} SaveAllThenGet(st: Storage, roomId: string, strokes: seq<Stroke>)
    requires GetFromLocal(st, roomId).Some?
    ensures SaveAll(st, roomId, strokes).Some?
    ensures GetFromLocal(SaveAll(st, roomId, strokes).value, roomId) == Some(GetFromLocal(st, roomId).value + strokes)
    decreases |strokes|
  {
    if strokes == [] {
      assert GetFromLocal(st, roomId).value + strokes == GetFromLocal(st, roomId).value;
    } else {
      var st' := SaveToLocal(st, roomId, strokes[0]).value;
      SaveAllThenGet(st', roomId, strokes[1..]);
      assert GetFromLocal(st, roomId).value + [strokes[0]] + strokes[1..] == GetFromLocal(st, roomId).value + strokes;
    }
  }

  /** Saving the same stroke twice stores two copies. */
  lemma NoDeduplication(st: Storage, roomId: string, stroke: Stroke)
    requires GetFromLocal(st, roomId).Some?
    ensures SaveAll(st, roomId, [stroke, stroke]).Some?
    ensures GetFromLocal(SaveAll(st, roomId, [stroke, stroke]).value, roomId) == Some(GetFromLocal(st, roomId).value + [stroke, stroke])
  {
    SaveAllThenGet(st, roomId, [stroke, stroke]);
  }
}
