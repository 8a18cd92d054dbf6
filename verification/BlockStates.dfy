/** Life-cycle states of a data block and the table of legal transitions. */
module BlockStates {

  datatype BlockState = Free | Allocated | Ready | Processing | Done | Timeout | Error

  function Row(s: BlockState): (r: nat)
    ensures r < 7
  {
    match s
    case Free => 0
    case Allocated => 1
    case Ready => 2
    case Processing => 3
    case Done => 4
    case Timeout => 5
    case Error => 6
  }

  /** Row: from-state; column: to-state. */
  const TRANSITIONS: seq<seq<bool>> := [
    [false, true,  false, false, false, false, false],
    [true,  false, true,  false, false, false, false],
    [true,  false, false, true,  false, true,  true],
    [true,  false, false, false, false, true,  true],
    [true,  false, false, false, false, false, false],
    [true,  false, false, false, false, false, false],
    [true,  false, false, false, false, false, false]
  ]

  predicate IsValidTransition(from: BlockState, to: BlockState) {
    TRANSITIONS[Row(from)][Row(to)]
  }

  /** What the table says: a block becomes Free from any other state, Allocated only
      from Free, Ready only from Allocated, Processing only from Ready, Timeout and
      Error only from Ready or Processing, and Done never. */
  lemma TransitionTable(from: BlockState, to: BlockState)
    ensures IsValidTransition(from, to) <==>
            match to
            case Free => from != Free
            case Allocated => from == Free
            case Ready => from == Allocated
            case Processing => from == Ready
            case Done => false
            case Timeout => from == Ready || from == Processing
            case Error => from == Ready || from == Processing
  {
    assert TRANSITIONS[0] == [false, true,  false, false, false, false, false];
  }
}
