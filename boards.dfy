/** The board: two open ends and the placement history (src/models/BoardState.ts). */
module Boards {
  import opened Wrappers
  import opened Dominoes

  datatype Branch = Left | Right

  function OtherBranch(branch: Branch): (o: Branch)
    ensures o != branch
  {
    if branch == Left then Right else Left
  }

  /** One committed placement: the tile's record, where it was drawn, and on which branch. */
  datatype PlacedTile = PlacedTile(domino: DominoData, x: real, y: real, rotation: int, branch: Branch)

  /** The plain record `toJSON` produces and `fromJSON` consumes. */
  datatype BoardStateData = BoardStateData(
    rightBranchNum: int,
    leftBranchNum: int,
    rightPhase: int,
    leftPhase: int,
    rightHor: int,
    rightVer: int,
    leftHor: int,
    leftVer: int,
    started: bool,
    placedTiles: seq<PlacedTile>)

  /** A branch's geometric growth counters: its phase and its two accumulators. */
  datatype Track = Track(phase: int, hor: int, ver: int)

  function BranchNumOf(data: BoardStateData, branch: Branch): int {
    if branch == Left then data.leftBranchNum else data.rightBranchNum
  }

  function TrackOf(data: BoardStateData, branch: Branch): Track {
    if branch == Left then Track(data.leftPhase, data.leftHor, data.leftVer)
    else Track(data.rightPhase, data.rightHor, data.rightVer)
  }

  /** `data` with one branch's open value replaced and every other field kept. */
  function WithBranchNum(data: BoardStateData, branch: Branch, n: int): (r: BoardStateData)
    ensures BranchNumOf(r, branch) == n
    ensures BranchNumOf(r, OtherBranch(branch)) == BranchNumOf(data, OtherBranch(branch))
    ensures TrackOf(r, Left) == TrackOf(data, Left) && TrackOf(r, Right) == TrackOf(data, Right)
    ensures r.started == data.started && r.placedTiles == data.placedTiles
  {
    if branch == Left then data.(leftBranchNum := n) else data.(rightBranchNum := n)
  }

  /** `data` with one branch's counters replaced and every other field kept. */
  function WithTrack(data: BoardStateData, branch: Branch, t: Track): (r: BoardStateData)
    ensures TrackOf(r, branch) == t
    ensures TrackOf(r, OtherBranch(branch)) == TrackOf(data, OtherBranch(branch))
    ensures r.leftBranchNum == data.leftBranchNum && r.rightBranchNum == data.rightBranchNum
    ensures r.started == data.started && r.placedTiles == data.placedTiles
  {
    if branch == Left then data.(leftPhase := t.phase, leftHor := t.hor, leftVer := t.ver)
    else data.(rightPhase := t.phase, rightHor := t.hor, rightVer := t.ver)
  }

  datatype BoardConfig = BoardConfig(sideLimit: int, tileOffset: real, lyingOffset: real, cornerShift: real)

  /** `Partial<BoardConfig>`: a key is either supplied or absent. */
  datatype PartialBoardConfig = PartialBoardConfig(
    sideLimit: Option<int>,
    tileOffset: Option<real>,
    lyingOffset: Option<real>,
    cornerShift: Option<real>)

  const DefaultBoardConfig := BoardConfig(13, 60.0, 30.0, 1.5)

  /** The constructor called without a config. */
  const NoOverrides := PartialBoardConfig(None, None, None, None)

  function OrDefault<T>(o: Option<T>, default: T): T {
    if o.Some? then o.value else default
  }

  /** `{ ...DEFAULT_BOARD_CONFIG, ...config }`: a supplied key wins, an absent one keeps its default. */
  function MergeConfig(overrides: PartialBoardConfig): (c: BoardConfig)
    ensures overrides.sideLimit.Some? ==> c.sideLimit == overrides.sideLimit.value
    ensures overrides.sideLimit.None? ==> c.sideLimit == DefaultBoardConfig.sideLimit
    ensures overrides.tileOffset.Some? ==> c.tileOffset == overrides.tileOffset.value
    ensures overrides.tileOffset.None? ==> c.tileOffset == DefaultBoardConfig.tileOffset
    ensures overrides.lyingOffset.Some? ==> c.lyingOffset == overrides.lyingOffset.value
    ensures overrides.lyingOffset.None? ==> c.lyingOffset == DefaultBoardConfig.lyingOffset
    ensures overrides.cornerShift.Some? ==> c.cornerShift == overrides.cornerShift.value
    ensures overrides.cornerShift.None? ==> c.cornerShift == DefaultBoardConfig.cornerShift
  {
    BoardConfig(
      OrDefault(overrides.sideLimit, DefaultBoardConfig.sideLimit),
      OrDefault(overrides.tileOffset, DefaultBoardConfig.tileOffset),
      OrDefault(overrides.lyingOffset, DefaultBoardConfig.lyingOffset),
      OrDefault(overrides.cornerShift, DefaultBoardConfig.cornerShift))
  }

  lemma DefaultConfigValues()
    ensures MergeConfig(NoOverrides) == BoardConfig(13, 60.0, 30.0, 1.5)
  {
  }

  /** The state of a board on which nothing has been placed yet. */
  const InitialBoard := BoardStateData(-1, -1, 0, 0, 0, 0, 0, 0, false, [])

  class BoardState {
    var rightBranchNum: int
    var leftBranchNum: int
    var rightPhase: int
    var leftPhase: int
    var rightHor: int
    var rightVer: int
    var leftHor: int
    var leftVer: int
    var started: bool
    var placedTiles: seq<PlacedTile>
    const config: BoardConfig

    /** A fresh board: both open values unset (-1), all counters 0, not started, nothing placed. */
    constructor (overrides: PartialBoardConfig)
      ensures ToJson() == InitialBoard
      ensures config == MergeConfig(overrides)
    {
      rightBranchNum, leftBranchNum := -1, -1;
      rightPhase, leftPhase := 0, 0;
      rightHor, rightVer, leftHor, leftVer := 0, 0, 0, 0;
      started := false;
      placedTiles := [];
      config := MergeConfig(overrides);
    }

    function BranchNum(branch: Branch): (n: int)
      reads this
      ensures n == BranchNumOf(ToJson(), branch)
    {
      if branch == Left then leftBranchNum else rightBranchNum
    }

    /** Anything goes on an unstarted board; afterwards one end of the tile must show the branch's value. */
    predicate CanPlaceOnBranch(domino: Domino, branch: Branch)
      reads this
      ensures !started ==> CanPlaceOnBranch(domino, branch)
      ensures started ==> (CanPlaceOnBranch(domino, branch) <==> Touches(domino, BranchNumOf(ToJson(), branch)))
    {
      if !started then true
      else Touches(domino, BranchNum(branch))
    }

    /** Appends exactly one record; no other field is touched. */
    method AddPlacedTile(domino: Domino, x: real, y: real, rotation: int, branch: Branch)
      modifies this`placedTiles
      ensures placedTiles == old(placedTiles) + [PlacedTile(Dominoes.ToJson(domino), x, y, rotation, branch)]
      ensures ToJson() == old(ToJson()).(placedTiles := old(placedTiles) + [PlacedTile(Dominoes.ToJson(domino), x, y, rotation, branch)])
    {
      placedTiles := placedTiles + [PlacedTile(Dominoes.ToJson(domino), x, y, rotation, branch)];
    }

    function ToJson(): (data: BoardStateData)
      reads this
      ensures data.placedTiles == placedTiles && data.started == started
    {
      BoardStateData(rightBranchNum, leftBranchNum, rightPhase, leftPhase,
                     rightHor, rightVer, leftHor, leftVer, started, placedTiles)
    }

    /** `fromJSON` builds `new BoardState()`: the record's fields on the default config. */
    constructor FromJson(data: BoardStateData)
      ensures ToJson() == data
      ensures config == DefaultBoardConfig
    {
      rightBranchNum, leftBranchNum := data.rightBranchNum, data.leftBranchNum;
      rightPhase, leftPhase := data.rightPhase, data.leftPhase;
      rightHor, rightVer := data.rightHor, data.rightVer;
      leftHor, leftVer := data.leftHor, data.leftVer;
      started := data.started;
      placedTiles := data.placedTiles;
      config := MergeConfig(NoOverrides);
    }
  }

  /** `fromJSON(toJSON(b))` reproduces every branch, phase, counter, `started` and the history;
      the config is not part of the record and comes back as the default. */
  method JsonRoundTrip(b: BoardState) returns (copy: BoardState)
    ensures fresh(copy)
    ensures copy.ToJson() == b.ToJson()
    ensures copy.config == DefaultBoardConfig
  {
    copy := new BoardState.FromJson(b.ToJson());
  }
}
