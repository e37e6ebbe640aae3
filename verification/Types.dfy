/** The entities of the engine as values: configuration, blocks, the block pool
    and one scheduled sequence. */
module Types {
  import opened Arith

  type Token = int

  datatype Option<+T> = None | Some(value: T)

  datatype Status = Waiting | Running | Finished | Cancelled

  /** `hash(prefix, tokens)` stands for the chained xxhash; `prefix` is -1 for the
      first block of a sequence and a digest otherwise. No property of it is built
      in: the few theorems that need it to be injective say so. */
  datatype Config = Config(
    blockSize: nat,
    numBlocks: nat,
    maxSeqs: nat,
    budget: nat,
    maxModelLen: nat,
    configuredK: nat,
    eos: Token,
    vocab: Option<nat>,
    hash: (int, seq<Token>) -> nat)
  {
    /** The facts established by configuration loading. */
    predicate Valid() {
      blockSize >= 2 && numBlocks >= 1 && 1 <= maxSeqs <= budget
    }
  }

  const NO_HASH: int := -1

  datatype Block = Block(refs: int, hash: int, toks: seq<Token>)

  /** A block that was just taken from the free list. */
  const FRESH := Block(1, NO_HASH, [])

  datatype Pool = Pool(
    blocks: seq<Block>,
    free: seq<nat>,
    used: set<nat>,
    index: map<int, nat>)

  /** A request as the scheduler sees it. */
  datatype Row = Row(
    id: nat,
    status: Status,
    toks: seq<Token>,
    prompt: nat,
    cached: nat,
    draft: nat,
    sched: nat,
    prefill: bool,
    table: seq<nat>,
    maxTokens: nat,
    ignoreEos: bool)
  {
    function NumBlocks(bs: nat): nat
      requires bs >= 1
    {
      CeilDiv(|toks|, bs)
    }

    function Completions(): int { |toks| - prompt }

    function Remaining(): int { maxTokens - Completions() }
  }

  /** One item of the public event stream. */
  datatype Event = Event(id: nat, token: Token, finished: bool)

  function BlockTokens(toks: seq<Token>, i: nat, bs: nat): seq<Token> {
    var lo := Min(i * bs, |toks|);
    var hi := Min((i + 1) * bs, |toks|);
    if 0 <= lo <= hi then toks[lo..hi] else []
  }

  function ToSet(q: seq<nat>): set<nat> {
    set b | b in q
  }

  /** The index entries that name none of the given blocks. */
  function Without(index: map<int, nat>, gone: set<nat>): map<int, nat> {
    map h | h in index && index[h] !in gone :: index[h]
  }

  ghost predicate NoDup(q: seq<nat>) {
    forall i, j :: 0 <= i < j < |q| ==> q[i] != q[j]
  }
}
