/** Placement classification and the board's commit steps (src/managers/SlotHelper.ts). */
module Slots {
  import opened Dominoes
  import opened Boards

  /** Phases in which a branch grows along the board's long axis: 0 and 4 onwards. */
  predicate HorizontalPhase(phase: int) {
    phase == 0 || phase >= 4
  }

  /** Phases in which the branch turns a corner. */
  predicate CornerPhase(phase: int) {
    phase == 1 || phase == 3
  }

  /** Phases in which the branch grows back towards the centre. */
  predicate ReversedPhase(phase: int) {
    phase == 2 || phase >= 4
  }

  /** In phases 0 and 4+ a tile stands iff it is a double; in every other phase iff it is not. */
  function CheckStanding(domino: Domino, phase: int): (standing: bool)
    ensures HorizontalPhase(phase) ==> (standing <==> IsDouble(domino))
    ensures !HorizontalPhase(phase) ==> (standing <==> !IsDouble(domino))
  {
    if HorizontalPhase(phase) then IsDouble(domino) else !IsDouble(domino)
  }

  /** A standing tile advances its branch by one unit, a lying tile by two. */
  function MoveAmount(domino: Domino, phase: int): (m: int)
    ensures m == 1 || m == 2
    ensures m == 1 <==> CheckStanding(domino, phase)
  {
    if CheckStanding(domino, phase) then 1 else 2
  }

  /** The end (top or bottom) that should face the connection: top for the right branch
      in a normal phase and for the left branch in a reversed one. */
  predicate TopShouldMatch(branch: Branch, phase: int) {
    (branch == Right) != ReversedPhase(phase)
  }

  /** A tile is drawn mirrored when its matching pip sits on the end that should not
      face the connection. Doubles and an unset branch value never flip. */
  function ComputeFlip(domino: Domino, branchNum: int, branch: Branch, phase: int): (flipped: bool)
    ensures IsDouble(domino) ==> !flipped
    ensures branchNum < 0 ==> !flipped
    ensures flipped ==> (domino.topIndex == branchNum) != (domino.bottomIndex == branchNum)
    ensures flipped <==> !IsDouble(domino) && branchNum >= 0 && Touches(domino, branchNum)
                         && (domino.topIndex == branchNum) != TopShouldMatch(branch, phase)
  {
    if IsDouble(domino) then false
    else if branchNum < 0 then false
    else if TopShouldMatch(branch, phase) then
      domino.bottomIndex == branchNum && domino.topIndex != branchNum
    else
      domino.topIndex == branchNum && domino.bottomIndex != branchNum
  }

  /** The non-pixel part of a `SlotPosition`. */
  datatype SlotOrientation = SlotOrientation(rotation: int, standing: bool, branch: Branch, flipped: bool)

  /** Orientation of the slot a tile would take on a branch (the x/y pixel formulas are not modelled). */
  function GetSlotPosition(board: BoardState, domino: Domino, branch: Branch): (s: SlotOrientation)
    reads board
    ensures s.branch == branch
    ensures s.standing == CheckStanding(domino, TrackOf(board.ToJson(), branch).phase)
    ensures s.rotation == 0 || s.rotation == -90
    ensures !board.started ==> !s.flipped && (s.rotation == 0 <==> IsDouble(domino))
    ensures board.started ==>
              s.flipped == ComputeFlip(domino, board.BranchNum(branch), branch, TrackOf(board.ToJson(), branch).phase)
              && (s.rotation == 0 <==> (s.standing != CornerPhase(TrackOf(board.ToJson(), branch).phase)))
  {
    var phase := if branch == Right then board.rightPhase else board.leftPhase;
    var standing := CheckStanding(domino, phase);
    if !board.started then
      SlotOrientation(if IsDouble(domino) then 0 else -90, standing, branch, false)
    else
      var rotation :=
        if phase == 1 || phase == 3 then (if standing then -90 else 0)
        else (if standing then 0 else -90);
      var branchNum := if branch == Right then board.rightBranchNum else board.leftBranchNum;
      SlotOrientation(rotation, standing, branch, ComputeFlip(domino, branchNum, branch, phase))
  }

  /** `updateBranchPosition` on one branch's counters. */
  function Advance(t: Track, moveAmount: int, sideLimit: int): (r: Track)
    ensures t.phase <= r.phase <= t.phase + 1
    ensures t.phase == 0 ==> r.hor == t.hor + moveAmount && r.ver == t.ver && (r.phase == 1 <==> r.hor >= sideLimit)
    ensures t.phase == 1 ==> r.ver == t.ver + moveAmount && r.hor == t.hor && (r.phase == 2 <==> r.ver >= 2)
    ensures t.phase == 2 ==> r.hor == t.hor - moveAmount && r.ver == t.ver && (r.phase == 3 <==> r.hor <= 0)
    ensures t.phase == 3 ==> r.ver == t.ver + moveAmount && r.hor == t.hor && (r.phase == 4 <==> r.ver >= 4)
    ensures !(0 <= t.phase <= 3) ==> r == Track(t.phase, t.hor + moveAmount, t.ver)
  {
    match t.phase
    case 0 =>
      var hor := t.hor + moveAmount;
      Track(if hor >= sideLimit then 1 else 0, hor, t.ver)
    case 1 =>
      var ver := t.ver + moveAmount;
      Track(if ver >= 2 then 2 else 1, t.hor, ver)
    case 2 =>
      var hor := t.hor - moveAmount;
      Track(if hor <= 0 then 3 else 2, hor, t.ver)
    case 3 =>
      var ver := t.ver + moveAmount;
      Track(if ver >= 4 then 4 else 3, t.hor, ver)
    case _ =>
      Track(t.phase, t.hor + moveAmount, t.ver)
  }

  /** Where a branch's counters can be when it started at (0, 0, 0) and every move was 1 or 2. */
  ghost predicate GrowthInvariant(t: Track, sideLimit: int) {
    match t.phase
    case 0 => 0 <= t.hor < sideLimit && t.ver == 0
    case 1 => sideLimit <= t.hor <= sideLimit + 1 && 0 <= t.ver < 2
    case 2 => 0 < t.hor <= sideLimit + 1 && 2 <= t.ver <= 3
    case 3 => -1 <= t.hor <= 0 && 2 <= t.ver < 4
    case 4 => -1 <= t.hor && 4 <= t.ver <= 5
    case _ => false
  }

  lemma InitialTrackGrowth(sideLimit: int)
    requires sideLimit >= 1
    ensures GrowthInvariant(TrackOf(InitialBoard, Left), sideLimit)
    ensures GrowthInvariant(TrackOf(InitialBoard, Right), sideLimit)
  {
  }

  /** Every placement keeps the invariant: a branch runs through phases 0, 1, 2, 3, 4 in order,
      one at a time, and then stays in phase 4. */
  lemma AdvancePreservesGrowth(t: Track, moveAmount: int, sideLimit: int)
    requires sideLimit >= 1 && (moveAmount == 1 || moveAmount == 2)
    requires GrowthInvariant(t, sideLimit)
    ensures GrowthInvariant(Advance(t, moveAmount, sideLimit), sideLimit)
    ensures 0 <= Advance(t, moveAmount, sideLimit).phase <= 4
  {
  }

  /** The open end a tile leaves when it is laid against `branchNum`:
      the bottom pip if the top matched, otherwise the top pip. */
  function OpenEnd(domino: Domino, branchNum: int): (r: int)
    ensures r == domino.topIndex || r == domino.bottomIndex
    ensures Touches(domino, branchNum) ==> multiset{branchNum, r} == multiset{domino.topIndex, domino.bottomIndex}
    ensures IsDouble(domino) ==> r == domino.topIndex
    ensures !Touches(domino, branchNum) ==> r == domino.topIndex
  {
    if domino.topIndex == branchNum then domino.bottomIndex else domino.topIndex
  }

  /** A double played on a branch it matches leaves that branch's value unchanged. */
  lemma OpenEndOfDouble(domino: Domino, branchNum: int)
    requires IsDouble(domino) && Touches(domino, branchNum)
    ensures OpenEnd(domino, branchNum) == branchNum
  {
  }

  /** `confirmOccupation` on the board record. */
  function Occupy(data: BoardStateData, domino: Domino, branch: Branch): (r: BoardStateData)
    ensures r.started
    ensures TrackOf(r, Left) == TrackOf(data, Left) && TrackOf(r, Right) == TrackOf(data, Right)
    ensures r.placedTiles == data.placedTiles
    ensures !data.started ==>
              r.leftBranchNum == domino.topIndex
              && r.rightBranchNum == (if IsDouble(domino) then domino.topIndex else domino.bottomIndex)
    ensures data.started ==>
              BranchNumOf(r, branch) == OpenEnd(domino, BranchNumOf(data, branch))
              && BranchNumOf(r, OtherBranch(branch)) == BranchNumOf(data, OtherBranch(branch))
  {
    if !data.started then
      var right := if IsDouble(domino) then domino.topIndex else domino.bottomIndex;
      data.(rightBranchNum := right, leftBranchNum := domino.topIndex, started := true)
    else
      WithBranchNum(data, branch, OpenEnd(domino, BranchNumOf(data, branch)))
  }

  /** A fresh board takes its two open values from the first tile: a double puts its
      value on both branches. */
  lemma FirstTileSetsBothEnds(domino: Domino, branch: Branch)
    ensures BranchNumOf(Occupy(InitialBoard, domino, branch), Left) == domino.topIndex
    ensures BranchNumOf(Occupy(InitialBoard, domino, branch), Right) == domino.bottomIndex
  {
  }

  /** `confirmMoving` on the board record. */
  function Move(data: BoardStateData, domino: Domino, branch: Branch, sideLimit: int): (r: BoardStateData)
    ensures TrackOf(r, branch) == Advance(TrackOf(data, branch), MoveAmount(domino, TrackOf(data, branch).phase), sideLimit)
    ensures TrackOf(r, OtherBranch(branch)) == TrackOf(data, OtherBranch(branch))
    ensures r.leftBranchNum == data.leftBranchNum && r.rightBranchNum == data.rightBranchNum
    ensures r.started == data.started && r.placedTiles == data.placedTiles
  {
    var t := TrackOf(data, branch);
    WithTrack(data, branch, Advance(t, MoveAmount(domino, t.phase), sideLimit))
  }

  /** Both branches keep the growth invariant across a placement: the moved one by
      `AdvancePreservesGrowth`, the other because it does not change. */
  lemma {:induction false} MovePreservesGrowth(data: BoardStateData, domino: Domino, branch: Branch, sideLimit: int)
    requires sideLimit >= 1
    requires GrowthInvariant(TrackOf(data, Left), sideLimit) && GrowthInvariant(TrackOf(data, Right), sideLimit)
    ensures GrowthInvariant(TrackOf(Move(data, domino, branch, sideLimit), Left), sideLimit)
    ensures GrowthInvariant(TrackOf(Move(data, domino, branch, sideLimit), Right), sideLimit)
  {
    var t := TrackOf(data, branch);
    AdvancePreservesGrowth(t, MoveAmount(domino, t.phase), sideLimit);
    assert OtherBranch(branch) != branch;
  }

  /** A (tile, branch) pair the player could play. */
  datatype MatchResult = MatchResult(tile: Domino, branch: Branch)

  function BranchValue(branch: Branch, leftBranch: int, rightBranch: int): int {
    if branch == Left then leftBranch else rightBranch
  }

  /** The pairs one tile contributes: 'left' if it matches the left value, 'right' if it
      matches the right value unless it already matched an equal left value. */
  function MatchesOfTile(tile: Domino, leftBranch: int, rightBranch: int): seq<MatchResult> {
    var matchesLeft := Touches(tile, leftBranch);
    var matchesRight := Touches(tile, rightBranch);
    (if matchesLeft then [MatchResult(tile, Left)] else [])
    + (if matchesRight && (!matchesLeft || leftBranch != rightBranch) then [MatchResult(tile, Right)] else [])
  }

  function MatchesOf(dominos: seq<Domino>, leftBranch: int, rightBranch: int): seq<MatchResult>
    decreases |dominos|
  {
    if dominos == [] then []
    else MatchesOf(dominos[..|dominos| - 1], leftBranch, rightBranch)
         + MatchesOfTile(dominos[|dominos| - 1], leftBranch, rightBranch)
  }

  /** The loop of `getMatchingTiles`, pushing onto a local list. */
  method GetMatchingTiles(dominos: seq<Domino>, leftBranch: int, rightBranch: int) returns (results: seq<MatchResult>)
    ensures results == MatchesOf(dominos, leftBranch, rightBranch)
  {
    results := [];
    for i := 0 to |dominos|
      invariant results == MatchesOf(dominos[..i], leftBranch, rightBranch)
    {
      var tile := dominos[i];
      var matchesLeft := tile.topIndex == leftBranch || tile.bottomIndex == leftBranch;
      var matchesRight := tile.topIndex == rightBranch || tile.bottomIndex == rightBranch;
      if matchesLeft {
        results := results + [MatchResult(tile, Left)];
      }
      if matchesRight && (!matchesLeft || leftBranch != rightBranch) {
        results := results + [MatchResult(tile, Right)];
      }
      assert dominos[..i + 1][..i] == dominos[..i];
    }
    assert dominos[..|dominos|] == dominos;
  }

  /** Every pair has a pip equal to its branch's value; with equal values only 'left' occurs. */
  lemma {:induction false} MatchesAreLegal(dominos: seq<Domino>, leftBranch: int, rightBranch: int, m: MatchResult)
    requires m in MatchesOf(dominos, leftBranch, rightBranch)
    ensures m.tile in dominos
    ensures Touches(m.tile, BranchValue(m.branch, leftBranch, rightBranch))
    ensures leftBranch == rightBranch ==> m.branch == Left
    decreases |dominos|
  {
    var n := |dominos|;
    var init := dominos[..n - 1];
    if m in MatchesOf(init, leftBranch, rightBranch) {
      MatchesAreLegal(init, leftBranch, rightBranch, m);
      assert m.tile in dominos by { assert m.tile in init; }
    } else {
      assert m in MatchesOfTile(dominos[n - 1], leftBranch, rightBranch);
      assert dominos[n - 1] in dominos;
    }
  }

  /** Every tile of the list is offered on each branch it matches (once, as 'left', when the values agree). */
  lemma {:induction false} MatchesAreComplete(dominos: seq<Domino>, leftBranch: int, rightBranch: int, t: Domino)
    requires t in dominos
    ensures Touches(t, leftBranch) ==> MatchResult(t, Left) in MatchesOf(dominos, leftBranch, rightBranch)
    ensures Touches(t, rightBranch) && leftBranch != rightBranch ==> MatchResult(t, Right) in MatchesOf(dominos, leftBranch, rightBranch)
    decreases |dominos|
  {
    var n := |dominos|;
    var init := dominos[..n - 1];
    if t != dominos[n - 1] {
      assert dominos == init + [dominos[n - 1]];
      assert t in init;
      MatchesAreComplete(init, leftBranch, rightBranch, t);
    }
  }

  /** One tile contributes at most one pair per branch, and only pairs naming itself. */
  lemma MatchesOfTileMultiplicity(x: Domino, leftBranch: int, rightBranch: int, t: Domino, b: Branch)
    ensures multiset(MatchesOfTile(x, leftBranch, rightBranch))[MatchResult(t, b)] <= if x == t then 1 else 0
  {
    var ms := MatchesOfTile(x, leftBranch, rightBranch);
    assert |ms| <= 2;
    assert forall k :: 0 <= k < |ms| ==> ms[k].tile == x;
    if |ms| == 2 {
      assert ms[0].branch == Left && ms[1].branch == Right;
      assert ms == [ms[0]] + [ms[1]];
    }
  }

  /** A tile yields at most one pair per branch and per occurrence, so at most two pairs. */
  lemma {:induction false} MatchesMultiplicity(dominos: seq<Domino>, leftBranch: int, rightBranch: int, t: Domino, b: Branch)
    ensures multiset(MatchesOf(dominos, leftBranch, rightBranch))[MatchResult(t, b)] <= multiset(dominos)[t]
    decreases |dominos|
  {
    if dominos != [] {
      var n := |dominos|;
      var init := dominos[..n - 1];
      var last := dominos[n - 1];
      MatchesMultiplicity(init, leftBranch, rightBranch, t, b);
      MatchesOfTileMultiplicity(last, leftBranch, rightBranch, t, b);
      assert dominos == init + [last];
      assert multiset(dominos) == multiset(init) + multiset{last};
      assert multiset(MatchesOf(dominos, leftBranch, rightBranch))
          == multiset(MatchesOf(init, leftBranch, rightBranch)) + multiset(MatchesOfTile(last, leftBranch, rightBranch));
    }
  }

  lemma {:induction false} MatchesLength(dominos: seq<Domino>, leftBranch: int, rightBranch: int)
    ensures |MatchesOf(dominos, leftBranch, rightBranch)| <= 2 * |dominos|
    ensures leftBranch == rightBranch ==> |MatchesOf(dominos, leftBranch, rightBranch)| <= |dominos|
    decreases |dominos|
  {
    if dominos != [] {
      MatchesLength(dominos[..|dominos| - 1], leftBranch, rightBranch);
    }
  }

  /** The component that owns the board's commit steps; its constants come from the board's config. */
  class SlotHelper {
    const tileOffset: real
    const lyingOffset: real
    const cornerShift: real
    const sideLimit: int

    constructor (board: BoardState)
      ensures tileOffset == board.config.tileOffset && lyingOffset == board.config.lyingOffset
      ensures cornerShift == board.config.cornerShift && sideLimit == board.config.sideLimit
    {
      tileOffset := board.config.tileOffset;
      lyingOffset := board.config.lyingOffset;
      cornerShift := board.config.cornerShift;
      sideLimit := board.config.sideLimit;
    }

    /** Advances the named branch's counters by the move amount; nothing else changes. */
    method UpdateBranchPosition(board: BoardState, branch: Branch, moveAmount: int)
      modifies board
      ensures board.ToJson() == WithTrack(old(board.ToJson()), branch,
                                          Advance(TrackOf(old(board.ToJson()), branch), moveAmount, sideLimit))
    {
      if branch == Right {
        match board.rightPhase
        case 0 =>
          board.rightHor := board.rightHor + moveAmount;
          if board.rightHor >= sideLimit { board.rightPhase := 1; }
        case 1 =>
          board.rightVer := board.rightVer + moveAmount;
          if board.rightVer >= 2 { board.rightPhase := 2; }
        case 2 =>
          board.rightHor := board.rightHor - moveAmount;
          if board.rightHor <= 0 { board.rightPhase := 3; }
        case 3 =>
          board.rightVer := board.rightVer + moveAmount;
          if board.rightVer >= 4 { board.rightPhase := 4; }
        case _ =>
          board.rightHor := board.rightHor + moveAmount;
      } else {
        match board.leftPhase
        case 0 =>
          board.leftHor := board.leftHor + moveAmount;
          if board.leftHor >= sideLimit { board.leftPhase := 1; }
        case 1 =>
          board.leftVer := board.leftVer + moveAmount;
          if board.leftVer >= 2 { board.leftPhase := 2; }
        case 2 =>
          board.leftHor := board.leftHor - moveAmount;
          if board.leftHor <= 0 { board.leftPhase := 3; }
        case 3 =>
          board.leftVer := board.leftVer + moveAmount;
          if board.leftVer >= 4 { board.leftPhase := 4; }
        case _ =>
          board.leftHor := board.leftHor + moveAmount;
      }
    }

    /** Moves the branch by 1 for a standing tile and 2 for a lying one. */
    method ConfirmMoving(board: BoardState, domino: Domino, branch: Branch)
      modifies board
      ensures board.ToJson() == Move(old(board.ToJson()), domino, branch, sideLimit)
    {
      var standing := CheckStanding(domino, if branch == Right then board.rightPhase else board.leftPhase);
      var moveAmount := if standing then 1 else 2;
      if branch == Right {
        UpdateBranchPosition(board, Right, moveAmount);
      } else {
        UpdateBranchPosition(board, Left, moveAmount);
      }
    }

    /** Commits the open-value update of a placement. */
    method ConfirmOccupation(board: BoardState, domino: Domino, branch: Branch)
      modifies board
      ensures board.ToJson() == Occupy(old(board.ToJson()), domino, branch)
    {
      var branchNum := if branch == Right then board.rightBranchNum else board.leftBranchNum;
      if !board.started {
        board.rightBranchNum := domino.bottomIndex;
        board.leftBranchNum := domino.topIndex;
        if IsDouble(domino) {
          board.rightBranchNum := domino.topIndex;
          board.leftBranchNum := domino.topIndex;
        }
        board.started := true;
        return;
      }
      var newBranchNum;
      if domino.topIndex == branchNum {
        newBranchNum := domino.bottomIndex;
      } else {
        newBranchNum := domino.topIndex;
      }
      if branch == Right {
        board.rightBranchNum := newBranchNum;
      } else {
        board.leftBranchNum := newBranchNum;
      }
    }
  }
}
