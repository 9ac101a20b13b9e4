/**
 * What the call screen's video grid (`VideoGrid.jsx`) renders from the hook's state: the grid
 * classes for the number of tiles, one tile per stream with its label and indicators, and the
 * "waiting for others" banner.
 */
module VideoGrid {
  import opened Wrappers
  import opened Json
  import VideoCall

  /** `1 + (remoteStreams?.length || 0)` */
  function TotalParticipants(remote: Option<seq<VideoCall.RemoteStream>>): (n: nat)
    ensures n >= 1
    ensures n == 1 <==> remote.None? || remote.value == []
    ensures remote.Some? ==> n == |remote.value| + 1
  {
    1 + (if remote.Some? then |remote.value| else 0)
  }

  /** `getGridCols(count)` */
  function GridCols(count: nat): (cls: string)
    ensures count == 1 ==> cls == "grid-cols-1"
    ensures count == 2 ==> cls == "grid-cols-1 lg:grid-cols-2"
    ensures (count == 0 || 3 <= count <= 4) ==> cls == "grid-cols-2"
    ensures 5 <= count <= 6 ==> cls == "grid-cols-2 lg:grid-cols-3"
    ensures count >= 7 ==> cls == "grid-cols-2 lg:grid-cols-3 xl:grid-cols-4"
  {
    if count == 1 then "grid-cols-1"
    else if count == 2 then "grid-cols-1 lg:grid-cols-2"
    else if count <= 4 then "grid-cols-2"
    else if count <= 6 then "grid-cols-2 lg:grid-cols-3"
    else "grid-cols-2 lg:grid-cols-3 xl:grid-cols-4"
  }

  /** `getAspectRatio(count)`: wide tiles for one or two, square on small screens beyond */
  function AspectRatio(count: nat): (cls: string)
    ensures cls == "aspect-video" <==> count == 1 || count == 2
    ensures cls != "aspect-video" ==> cls == "aspect-square lg:aspect-video"
  {
    if count == 1 then "aspect-video"
    else if count == 2 then "aspect-video"
    else "aspect-square lg:aspect-video"
  }

  /** `participants.find(p => p.id === id)`: the first participant carrying the id */
  function FindById(ps: seq<Object>, id: string): (r: Option<Object>)
    ensures r.None? <==> forall i :: 0 <= i < |ps| ==> !HasId(ps[i], id)
    ensures r.Some? ==> exists i :: (0 <= i < |ps| && ps[i] == r.value && HasId(ps[i], id) &&
      forall j :: 0 <= j < i ==> !HasId(ps[j], id))
  {
    if ps == [] then None
    else if HasId(ps[0], id) then Some(ps[0])
    else
      var r := FindById(ps[1..], id);
      if r.Some? then
        ghost var i :| 0 <= i < |ps[1..]| && ps[1..][i] == r.value && HasId(ps[1..][i], id) &&
          forall j :: 0 <= j < i ==> !HasId(ps[1..][j], id);
        assert ps[i + 1] == r.value && forall j :: 0 <= j < i + 1 ==> !HasId(ps[j], id) by {
          forall j | 0 <= j < i + 1 ensures !HasId(ps[j], id) {
            if j > 0 {
              assert ps[j] == ps[1..][j - 1];
            }
          }
        }
        r
      else
        assert forall i :: 1 <= i < |ps| ==> ps[i] == ps[1..][i - 1];
        r
  }

  /** The stand-in for a stream whose participant is not in the list */
  function Fallback(index: nat): Object {
    map["name" := Text("Participant " + NatToString(index + 1)), "isMuted" := Bool(false),
        "isVideoOff" := Bool(false), "connectionStatus" := Text("connected")]
  }

  /** What one `VideoTile` shows */
  datatype Tile = Tile(
    showsVideo: bool,         // a `<video>` element rather than the placeholder
    caption: string,          // the name under the placeholder icon
    badge: string,            // the name in the bottom-left badge
    cameraOffNote: bool,      // "Camera off" under the placeholder
    muteIcon: Option<bool>,   // the microphone indicator, `Some(muted)` when shown
    videoOffIcon: bool,       // the camera-off indicator
    statusDot: Option<string>)  // the colour of the connection dot, when shown

  /**
   * `participant?.name || (isLocal ? 'You' : 'Participant')` as a JSX child: a truthy name is
   * shown, except that `true` renders as nothing; any other name gives the fallback.
   */
  function Label(p: Object, isLocal: bool): (s: string)
    ensures Get(p, "name").Some? && Get(p, "name").value.Text? && Get(p, "name").value.s != "" ==> s == Get(p, "name").value.s
    ensures Get(p, "name") == Some(Bool(true)) ==> s == ""
    ensures !(Get(p, "name").Some? && Truthy(Get(p, "name").value)) ==> s == if isLocal then "You" else "Participant"
    ensures s == "" <==> Get(p, "name") == Some(Bool(true))
  {
    var name := Get(p, "name");
    if name.Some? && Truthy(name.value) then JsxText(name.value)
    else if isLocal then "You" else "Participant"
  }

  /** The connection dot: green when connected, yellow while connecting, red otherwise */
  function StatusDot(p: Object): (dot: Option<string>)
    ensures dot.Some? <==> Get(p, "connectionStatus").Some? && Truthy(Get(p, "connectionStatus").value)
    ensures dot == Some("bg-green-500") <==> Get(p, "connectionStatus") == Some(Text("connected"))
    ensures dot == Some("bg-yellow-500") <==> Get(p, "connectionStatus") == Some(Text("connecting"))
    ensures dot == Some("bg-red-500") <==>
      && Get(p, "connectionStatus").Some? && Truthy(Get(p, "connectionStatus").value)
      && Get(p, "connectionStatus") !in {Some(Text("connected")), Some(Text("connecting"))}
  {
    var status := Get(p, "connectionStatus");
    if status.None? || !Truthy(status.value) then None
    else if status.value == Text("connected") then Some("bg-green-500")
    else if status.value == Text("connecting") then Some("bg-yellow-500")
    else Some("bg-red-500")
  }

  /** `VideoTile({stream, participant, isLocal, isVideoOff})`, `hasStream` telling whether `stream` is set */
  function TileView(hasStream: bool, p: Object, isLocal: bool, isVideoOff: bool): (t: Tile)
    ensures t.showsVideo <==> hasStream && !isVideoOff
    ensures t.cameraOffNote ==> !t.showsVideo
    ensures t.badge == t.caption + (if isLocal then " (You)" else "")
    ensures t.muteIcon.Some? <==> "isMuted" in p
    ensures t.videoOffIcon <==> isVideoOff || ("isVideoOff" in p && Truthy(p["isVideoOff"]))
  {
    var shows := hasStream && !isVideoOff;
    Tile(shows, Label(p, isLocal), Label(p, isLocal) + (if isLocal then " (You)" else ""),
         !shows && isVideoOff,
         if "isMuted" in p then Some(Truthy(p["isMuted"])) else None,
         isVideoOff || (Get(p, "isVideoOff").Some? && Truthy(Get(p, "isVideoOff").value)),
         StatusDot(p))
  }

  /** The local tile: `participant={{ name: 'You', isMuted: false }}` */
  function LocalTile(local: Option<VideoCall.MediaStream>, isVideoOff: bool): Tile {
    TileView(local.Some?, map["name" := Text("You"), "isMuted" := Bool(false)], true, isVideoOff)
  }

  /** The tile of the `index`-th remote stream */
  function RemoteTile(ps: seq<Object>, rs: seq<VideoCall.RemoteStream>, index: nat): Tile
    requires index < |rs|
  {
    var found := FindById(ps, rs[index].participantId);
    TileView(true, if found.Some? then found.value else Fallback(index), false, false)
  }

  /** The local tile says "You" and shows video exactly when there is a stream and the camera is on */
  lemma LocalTileShape(local: Option<VideoCall.MediaStream>, isVideoOff: bool)
    ensures var t := LocalTile(local, isVideoOff);
      && t.caption == "You" && t.badge == "You (You)"
      && t.showsVideo == (local.Some? && !isVideoOff)
      && t.cameraOffNote == isVideoOff
      && t.muteIcon == Some(false) && t.statusDot.None?
  {
    var p := map["name" := Text("You"), "isMuted" := Bool(false)];
    assert Get(p, "name") == Some(Text("You"));
    assert Get(p, "connectionStatus").None?;
  }

  /** A stream whose participant is unknown gets the stand-in: numbered, unmuted, connected */
  lemma RemoteTileFallback(ps: seq<Object>, rs: seq<VideoCall.RemoteStream>, index: nat)
    requires index < |rs|
    requires forall i :: 0 <= i < |ps| ==> !HasId(ps[i], rs[index].participantId)
    ensures var t := RemoteTile(ps, rs, index);
      && t.showsVideo && t.caption == "Participant " + NatToString(index + 1)
      && t.muteIcon == Some(false) && !t.videoOffIcon && t.statusDot == Some("bg-green-500")
  {
    var p := Fallback(index);
    assert Get(p, "name") == Some(Text("Participant " + NatToString(index + 1)));
    assert Get(p, "connectionStatus") == Some(Text("connected"));
    assert Get(p, "isVideoOff") == Some(Bool(false));
  }

  /** A stream whose participant is listed shows the first such participant's name */
  lemma RemoteTileNamed(ps: seq<Object>, rs: seq<VideoCall.RemoteStream>, index: nat, i: nat)
    requires index < |rs| && i < |ps| && HasId(ps[i], rs[index].participantId)
    requires forall j :: 0 <= j < i ==> !HasId(ps[j], rs[index].participantId)
    ensures RemoteTile(ps, rs, index) == TileView(true, ps[i], false, false)
  {
    var found := FindById(ps, rs[index].participantId);
    var k :| 0 <= k < |ps| && ps[k] == found.value && HasId(ps[k], rs[index].participantId) &&
      forall j :: 0 <= j < k ==> !HasId(ps[j], rs[index].participantId);
    assert k == i;
  }

  /** The grid: its classes, its tiles (local first), and whether the waiting banner shows */
  datatype Grid = Grid(cols: string, aspect: string, tiles: seq<Tile>, waiting: bool)

  /** `VideoGrid({localStream, remoteStreams, participants, isVideoOff})` */
  function Render(local: Option<VideoCall.MediaStream>, remote: Option<seq<VideoCall.RemoteStream>>,
                  ps: seq<Object>, isVideoOff: bool): (g: Grid)
    ensures |g.tiles| == TotalParticipants(remote)
    ensures g.tiles[0] == LocalTile(local, isVideoOff)
    ensures forall i :: 1 <= i < |g.tiles| ==> g.tiles[i].showsVideo && g.tiles[i] == RemoteTile(ps, remote.value, i - 1)
    ensures g.waiting <==> |g.tiles| == 1
    ensures g.cols == GridCols(|g.tiles|) && g.aspect == AspectRatio(|g.tiles|)
  {
    var total := TotalParticipants(remote);
    var rs := if remote.Some? then remote.value else [];
    var remoteTiles := seq(|rs|, i requires 0 <= i < |rs| => RemoteTile(ps, rs, i));
    Grid(GridCols(total), AspectRatio(total), [LocalTile(local, isVideoOff)] + remoteTiles, total == 1)
  }

  /** Alone in the room: one full-width tile and the banner; with company, no banner */
  lemma AloneShowsBanner(local: Option<VideoCall.MediaStream>, remote: Option<seq<VideoCall.RemoteStream>>,
                         ps: seq<Object>, isVideoOff: bool)
    ensures var g := Render(local, remote, ps, isVideoOff);
      (g.waiting <==> remote.None? || remote.value == [])
      && (g.waiting ==> g.cols == "grid-cols-1" && g.aspect == "aspect-video")
      && (!g.waiting ==> g.cols != "grid-cols-1")
  {
  }
}
