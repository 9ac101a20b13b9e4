/**
 * The room registry of the signaling backend (`video_service.py`): every active room by its
 * id, each with its key and the sockets of its participants.
 */
module RoomService {
  import opened Wrappers

  /** A WebSocket of the server, by identity */
  type ConnId = nat

  /** An error the backend raises as `HTTPException(status_code, detail)` */
  datatype HttpError = HttpError(status: nat, detail: string)

  const ID_LENGTH := 6
  const KEY_LENGTH := 8

  /** One draw of `random.choices`: an index into `string.ascii_uppercase + string.digits` */
  type Pick = p: nat | p < 36

  /** The picks behind one `generate_room_id()` */
  type IdPicks = s: seq<Pick> | |s| == ID_LENGTH witness [0, 0, 0, 0, 0, 0]

  /** The picks behind one `generate_room_key()` */
  type KeyPicks = s: seq<Pick> | |s| == KEY_LENGTH witness [0, 0, 0, 0, 0, 0, 0, 0]

  /** The characters of `string.ascii_uppercase + string.digits` */
  predicate IsCodeChar(c: char) {
    'A' <= c <= 'Z' || '0' <= c <= '9'
  }

  /** A string of `n` characters of that alphabet */
  predicate IsCode(s: string, n: nat) {
    |s| == n && forall i :: 0 <= i < |s| ==> IsCodeChar(s[i])
  }

  /** The `p`-th character of `string.ascii_uppercase + string.digits` */
  function CodeChar(p: Pick): (c: char)
    ensures IsCodeChar(c)
    ensures p < 26 <==> 'A' <= c <= 'Z'
  {
    if p < 26 then ('A' as int + p) as char else ('0' as int + (p - 26)) as char
  }

  /** Every character of the alphabet is drawn by exactly one pick */
  lemma CodeCharBijective(c: char)
    requires IsCodeChar(c)
    ensures exists p: Pick :: CodeChar(p) == c
    ensures forall p: Pick, q: Pick :: CodeChar(p) == c && CodeChar(q) == c ==> p == q
  {
    var p: Pick := if 'A' <= c then c as int - 'A' as int else c as int - '0' as int + 26;
    assert CodeChar(p) == c;
  }

  /** `''.join(random.choices(string.ascii_uppercase + string.digits, k=len(picks)))` */
  function Code(picks: seq<Pick>): (s: string)
    ensures IsCode(s, |picks|)
  {
    seq(|picks|, i requires 0 <= i < |picks| => CodeChar(picks[i]))
  }

  /** Different picks give different codes */
  lemma CodeInjective(a: seq<Pick>, b: seq<Pick>)
    requires |a| == |b|
    ensures Code(a) == Code(b) ==> a == b
  {
    if Code(a) == Code(b) {
      forall i | 0 <= i < |a| ensures a[i] == b[i] {
        assert Code(a)[i] == Code(b)[i];
        CodeCharBijective(Code(a)[i]);
      }
    }
  }

  /** `generate_room_id()` */
  function GenerateRoomId(picks: IdPicks): (id: string)
    ensures IsCode(id, ID_LENGTH)
  {
    Code(picks)
  }

  /** `generate_room_key()` */
  function GenerateRoomKey(picks: KeyPicks): (key: string)
    ensures IsCode(key, KEY_LENGTH)
  {
    Code(picks)
  }

  /** Some draw in `draws` yields an id outside `taken` */
  predicate SomeFresh(draws: seq<IdPicks>, taken: set<string>) {
    exists k :: 0 <= k < |draws| && GenerateRoomId(draws[k]) !in taken
  }

  /** The first draw whose id is outside `taken`: where `create_room`'s loop stops */
  ghost function FirstFresh(draws: seq<IdPicks>, taken: set<string>): (i: nat)
    requires SomeFresh(draws, taken)
    ensures i < |draws| && GenerateRoomId(draws[i]) !in taken
    ensures forall j :: 0 <= j < i ==> GenerateRoomId(draws[j]) in taken
  {
    if GenerateRoomId(draws[0]) !in taken then 0
    else
      var k :| 0 <= k < |draws| && GenerateRoomId(draws[k]) !in taken;
      assert draws[1..][k - 1] == draws[k];
      1 + FirstFresh(draws[1..], taken)
  }

  /** `Room`: its id and key never change, its participant sockets do */
  class Room {
    const roomId: string
    const roomKey: string
    var participants: map<string, ConnId>

    /** `Room(room_id, room_key)` starts with no participants */
    constructor (roomId: string, roomKey: string)
      ensures this.roomId == roomId && this.roomKey == roomKey && participants == map[]
    {
      this.roomId := roomId;
      this.roomKey := roomKey;
      participants := map[];
    }
  }

  /** `VideoService`: the one registry of active rooms (`_active_rooms`) */
  class VideoService {
    var activeRooms: map<string, Room>

    /** Every room is filed under its own id */
    ghost predicate Valid()
      reads this
    {
      forall id :: id in activeRooms ==> activeRooms[id].roomId == id
    }

    constructor ()
      ensures Valid() && activeRooms == map[]
    {
      activeRooms := map[];
    }

    /** `room_id = generate_room_id()` and the loop redrawing it while it is taken */
    method DrawFreshId(idDraws: seq<IdPicks>) returns (roomId: string)
      requires SomeFresh(idDraws, activeRooms.Keys)
      ensures roomId == GenerateRoomId(idDraws[FirstFresh(idDraws, activeRooms.Keys)])
      ensures roomId !in activeRooms
    {
      ghost var stop := FirstFresh(idDraws, activeRooms.Keys);
      var i := 0;
      roomId := GenerateRoomId(idDraws[0]);
      while roomId in activeRooms
        invariant 0 <= i <= stop
        invariant roomId == GenerateRoomId(idDraws[i])
        decreases stop - i
      {
        i := i + 1;
        roomId := GenerateRoomId(idDraws[i]);
      }
    }

    /**
     * `create_room()`: draw an id and a key, redraw the id while it is taken, then file a new
     * room under it. `idDraws` are the successive ids `generate_room_id` returns.
     */
    method CreateRoom(idDraws: seq<IdPicks>, keyDraw: KeyPicks) returns (roomId: string, roomKey: string)
      requires Valid()
      requires SomeFresh(idDraws, activeRooms.Keys)
      modifies this`activeRooms
      ensures Valid()
      ensures roomId !in old(activeRooms) && IsCode(roomId, ID_LENGTH) && IsCode(roomKey, KEY_LENGTH)
      ensures roomId == GenerateRoomId(idDraws[FirstFresh(idDraws, old(activeRooms).Keys)])
      ensures roomKey == GenerateRoomKey(keyDraw)
      ensures roomId in activeRooms && activeRooms == old(activeRooms)[roomId := activeRooms[roomId]]
      ensures fresh(activeRooms[roomId])
      ensures activeRooms[roomId].roomKey == roomKey && activeRooms[roomId].participants == map[]
      ensures |activeRooms| == |old(activeRooms)| + 1
    {
      roomId := DrawFreshId(idDraws);
      roomKey := GenerateRoomKey(keyDraw);
      var room := new Room(roomId, roomKey);
      activeRooms := activeRooms[roomId := room];
    }

    /** `verify_room(room_id, room_key)`: 404 for an unknown id, before the key is looked at */
    method VerifyRoom(roomId: string, roomKey: string) returns (r: Result<(), HttpError>)
      ensures roomId !in activeRooms ==> r == Failure(HttpError(404, "Room not found"))
      ensures roomId in activeRooms && activeRooms[roomId].roomKey != roomKey ==>
        r == Failure(HttpError(401, "Invalid room key"))
      ensures r.Success? <==> roomId in activeRooms && activeRooms[roomId].roomKey == roomKey
    {
      if roomId !in activeRooms {
        return Failure(HttpError(404, "Room not found"));
      }
      var room := activeRooms[roomId];
      if room.roomKey != roomKey {
        return Failure(HttpError(401, "Invalid room key"));
      }
      return Success(());
    }

    /** `get_room(room_id)`: the room filed under the id, `None` when there is none */
    method GetRoom(roomId: string) returns (r: Option<Room>)
      requires Valid()
      ensures r.Some? <==> roomId in activeRooms
      ensures r.Some? ==> r.value == activeRooms[roomId] && r.value.roomId == roomId
    {
      if roomId in activeRooms {
        r := Some(activeRooms[roomId]);
      } else {
        r := None;
      }
    }

    /** `remove_room(room_id)`: drops that id only; an absent id changes nothing */
    method RemoveRoom(roomId: string)
      requires Valid()
      modifies this`activeRooms
      ensures Valid()
      ensures activeRooms == old(activeRooms) - {roomId}
      ensures roomId !in old(activeRooms) ==> activeRooms == old(activeRooms)
      ensures roomId in old(activeRooms) ==> |activeRooms| == |old(activeRooms)| - 1
    {
      if roomId in activeRooms {
        activeRooms := activeRooms - {roomId};
      }
    }

    /** `get_room_count()` */
    method GetRoomCount() returns (n: nat)
      ensures n == |activeRooms|
    {
      n := |activeRooms|;
    }
  }
}
