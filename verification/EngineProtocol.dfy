// The rule engine's protocol, which the room server writes and the adapter
// reads (proto/engine/common/enums.proto, proto/engine/common/types.proto,
// proto/engine/validation.proto).
//
// An enum-valued field is its protobuf number, which need not name anything.
module EngineProtocol {
  import opened Wrappers

  const WIN_SELF_DRAW := 1
  const WIN_DISCARD := 2
  const WIN_ROB_KONG := 3
  const WIN_KONG_DRAW := 4

  const CLAIM_CHI := 1
  const CLAIM_PENG := 2
  const CLAIM_EXPOSED_KONG := 3
  const CLAIM_DISCARD_WIN := 4
  const CLAIM_ROB_KONG_WIN := 5

  const MELD_CHI := 1
  const MELD_PENG := 2
  const MELD_EXPOSED_KONG := 3
  const MELD_CONCEALED_KONG := 4
  const MELD_SUPPLEMENTAL_KONG := 5

  const ACTION_UNSPECIFIED := 0
  const ACTION_DRAW := 1
  const ACTION_DISCARD := 2
  const ACTION_CHI := 3
  const ACTION_PENG := 4
  const ACTION_EXPOSED_KONG := 5
  const ACTION_SUPPLEMENTAL_KONG := 7
  const ACTION_DECLARE_WIN := 8
  const ACTION_PASS := 9
  const ACTION_REPLACE_FLOWER := 10

  const REJECT_UNSPECIFIED := 0
  const REJECT_INVALID_CONTEXT := 1
  const REJECT_TILE_NOT_OWNED := 2
  const REJECT_TILE_NOT_AVAILABLE := 3
  const REJECT_HAND_NOT_COMPLETE := 5
  const REJECT_ACTION_WINDOW_MISMATCH := 7
  const REJECT_INTERNAL_ERROR := 8

  const NO_TILE := 0
  const LAST_TILE_NUMBER := 43

  datatype Meld = Meld(
    kind: int, tiles: seq<int>, fromSeat: int, claimedTile: int, concealed: bool, sourceEventSeq: nat)

  datatype EnginePlayerState = EnginePlayerState(seat: int, melds: seq<Meld>, flowers: seq<int>)

  datatype PrivateHand = PrivateHand(concealed: seq<int>, drawnTile: int)

  datatype ClaimAction = ClaimAction(
    kind: int, target: int, consume: seq<int>, source: int, sourceEventSeq: nat)

  datatype CandidateAction =
    | NoCandidate
    | CandidateDiscard(tile: int, tsumogiri: bool)
    | CandidateClaim(claim: ClaimAction)
    | CandidateWin(winType: int, winningTile: int, sourceSeat: int, sourceEventSeq: nat)
    | CandidatePass(sourceEventSeq: nat)
    | CandidateKong(kongKind: int, tile: int, consume: seq<int>, sourceSeat: int, sourceEventSeq: nat)
    | CandidateReplaceFlower

  datatype RecentAction = RecentAction(
    sourceEventSeq: nat, sourceSeat: int, sourceActionKind: int, sourceTile: int,
    replacementDraw: bool, robKongCandidate: bool)

  datatype ClaimWindow = ClaimWindow(
    actionWindowId: nat, sourceEventSeq: nat, sourceSeat: int, targetTile: int,
    triggerActionKind: int, eligibleSeats: seq<int>)

  /** A validation request; of the rule config only its presence is kept. */
  datatype ValidationRequest = ValidationRequest(
    roomId: string, matchId: string, roundId: string, serverEventSeq: nat,
    hasRuleConfig: bool, hasRoundContext: bool, hasCandidate: bool,
    prevailingWind: int, isLastTile: bool, actorSeat: int, candidate: CandidateAction,
    recent: Option<RecentAction>, players: seq<EnginePlayerState>, privateHand: Option<PrivateHand>,
    claimWindow: Option<ClaimWindow>)
}
