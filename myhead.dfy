// myhead.h: the buffers the engine fills (`Observation`, `Table`, `Epsilon`)
// and `get_data`, which turns the tokens of a data file into observations.

module MyHead {
  import opened Sums

  // ---------------------------------------------------------------------
  // Buffers (myhead.h:14-29)

  /** An observation: `seq_num` symbols at the front of a fixed buffer.
      C arrays of this struct hold values, so an `array<Observation>` is the
      same thing. */
  datatype Observation = Observation(seqNum: int, buffer: seq<int>)

  /** The symbols of an observation: the first `seqNum` buffer entries. */
  function Symbols(ob: Observation): (o: seq<int>)
    ensures 0 <= ob.seqNum <= |ob.buffer| ==> |o| == ob.seqNum && forall t :: 0 <= t < |o| ==> o[t] == ob.buffer[t]
  {
    if 0 <= ob.seqNum <= |ob.buffer| then ob.buffer[..ob.seqNum] else []
  }

  /** A `seq_num` x `state_num` table (alpha, beta, delta, psi) held in a
      fixed `MAX_SEQ` x `MAX_STATE` buffer. */
  class Table {
    var seqNum: int
    var stateNum: int
    const table: array2<real>

    constructor (maxSeq: nat, maxState: nat)
      ensures seqNum == 0 && stateNum == 0
      ensures table.Length0 == maxSeq && table.Length1 == maxState && fresh(table)
    {
      seqNum, stateNum := 0, 0;
      table := new real[maxSeq, maxState];
    }
  }

  /** The `seq_num` x `state_num` x `state_num` pair-posterior buffer. */
  class Epsilon {
    var seqNum: int
    var stateNum: int
    const table: array3<real>

    constructor (maxSeq: nat, maxState: nat)
      ensures seqNum == 0 && stateNum == 0
      ensures table.Length0 == maxSeq && table.Length1 == maxState && table.Length2 == maxState
      ensures fresh(table)
    {
      seqNum, stateNum := 0, 0;
      table := new real[maxSeq, maxState, maxState];
    }
  }

  // ---------------------------------------------------------------------
  // get_data (myhead.h:36-83)

  /** The `switch` of get_data: 'A'..'F' are symbols 0..5, anything else
      (including the terminating '\0') is -1. */
  function SymbolOf(c: char): int
  {
    match c
    case 'A' => 0
    case 'B' => 1
    case 'C' => 2
    case 'D' => 3
    case 'E' => 4
    case 'F' => 5
    case _ => -1
  }

  /** The number of leading characters of a token that are symbols. */
  function PrefixLen(tok: string): (n: nat)
    ensures n <= |tok|
  {
    if |tok| == 0 || SymbolOf(tok[0]) < 0 then 0 else 1 + PrefixLen(tok[1..])
  }

  /** Tokens the loop passes over without producing an observation. */
  predicate Skipped(tok: string)
  {
    |tok| == 0 || tok[0] == '\0' || tok[0] == '\n'
  }

  /** The tokens that produce observations, in input order. */
  function Kept(tokens: seq<string>): seq<string>
  {
    if |tokens| == 0 then []
    else Kept(tokens[..|tokens| - 1]) + (if Skipped(tokens[|tokens| - 1]) then [] else [tokens[|tokens| - 1]])
  }

  /** `now` is what get_data leaves in an observation slot that held `before`
      after reading `tok`: the symbols of the token's A-F prefix at the front,
      the rest of the buffer untouched. */
  ghost predicate Parsed(now: Observation, before: Observation, tok: string)
  {
    && now.seqNum == PrefixLen(tok)
    && |now.buffer| == |before.buffer|
    && PrefixLen(tok) <= |now.buffer|
    && (forall j :: 0 <= j < PrefixLen(tok) ==> now.buffer[j] == SymbolOf(tok[j]))
    && (forall j :: PrefixLen(tok) <= j < |now.buffer| ==> now.buffer[j] == before.buffer[j])
  }

  /** Every buffer can hold the A-F prefix of every token. */
  ghost predicate FitsBuffers(observs: seq<Observation>, tokens: seq<string>)
  {
    forall r, k :: 0 <= r < |observs| && 0 <= k < |tokens| ==> PrefixLen(tokens[k]) <= |observs[r].buffer|
  }

  /** get_data: read the tokens in order and fill one observation per kept
      token; returns how many were filled. The C code checks no capacity, so
      the slots and buffers must be large enough. */
  method GetData(observs: array<Observation>, tokens: seq<string>) returns (count: int)
    requires |Kept(tokens)| <= observs.Length
    requires FitsBuffers(observs[..], tokens)
    modifies observs
    ensures count == |Kept(tokens)|
    ensures forall r :: 0 <= r < count ==> Parsed(observs[r], old(observs[r]), Kept(tokens)[r])
    ensures forall r :: count <= r < observs.Length ==> observs[r] == old(observs[r])
  {
    var i := 0;
    var k := 0;
    while k < |tokens|
      invariant 0 <= k <= |tokens|
      invariant i == |Kept(tokens[..k])| <= |Kept(tokens)|
      invariant forall r :: 0 <= r < i ==> Parsed(observs[r], old(observs[r]), Kept(tokens[..k])[r])
      invariant forall r :: i <= r < observs.Length ==> observs[r] == old(observs[r])
    {
      var token := tokens[k];
      KeptPrefix(tokens, k);
      KeptMonotone(tokens, k + 1);
      k := k + 1;
      if Skipped(token) {
        continue;
      }
      assert PrefixLen(token) <= |observs[i].buffer| by {
        assert observs[..][i] == observs[i];
      }
      ParseToken(observs, i, token);
      i := i + 1;
    }
    assert tokens[..|tokens|] == tokens;
    count := i;
  }

  /** The j loop of get_data (myhead.h:47-80): the A-F prefix of the token
      is written into slot i, whose length becomes the prefix length. */
  method ParseToken(observs: array<Observation>, i: int, token: string)
    requires 0 <= i < observs.Length && PrefixLen(token) <= |observs[i].buffer|
    modifies observs
    ensures Parsed(observs[i], old(observs[i]), token)
    ensures forall r :: 0 <= r < observs.Length && r != i ==> observs[r] == old(observs[r])
  {
    PrefixLenIsLongest(token);
    ghost var before := observs[i];
    var j := 0;
    while true
      invariant 0 <= j <= PrefixLen(token)
      invariant observs[i].seqNum == before.seqNum
      invariant |observs[i].buffer| == |before.buffer|
      invariant forall r :: 0 <= r < j ==> observs[i].buffer[r] == SymbolOf(token[r])
      invariant forall r :: j <= r < |observs[i].buffer| ==> observs[i].buffer[r] == before.buffer[r]
      invariant forall r :: 0 <= r < observs.Length && r != i ==> observs[r] == old(observs[r])
      decreases |token| - j
    {
      var index := if j < |token| then SymbolOf(token[j]) else -1;
      if index < 0 {
        observs[i] := observs[i].(seqNum := j);
        return;
      }
      observs[i] := observs[i].(buffer := observs[i].buffer[j := index]);
      j := j + 1;
    }
  }

  // ---------------------------------------------------------------------
  // Properties of the parser

  lemma KeptPrefix(tokens: seq<string>, k: nat)
    requires k < |tokens|
    ensures Kept(tokens[..k + 1]) == Kept(tokens[..k]) + (if Skipped(tokens[k]) then [] else [tokens[k]])
  {
    assert tokens[..k + 1][..k] == tokens[..k];
  }

  /** Reading more tokens never produces fewer observations. */
  lemma {:induction false} KeptMonotone(tokens: seq<string>, k: nat)
    requires k <= |tokens|
    ensures |Kept(tokens[..k])| <= |Kept(tokens)|
    decreases |tokens| - k
  {
    if k < |tokens| {
      KeptPrefix(tokens, k);
      KeptMonotone(tokens, k + 1);
    } else {
      assert tokens[..k] == tokens;
    }
  }

  /** 'A'..'F' map to 0..5 in order, and nothing else maps into [0, 6). */
  lemma SymbolOfSpec(c: char)
    ensures -1 <= SymbolOf(c) < 6
    ensures SymbolOf(c) >= 0 <==> 'A' <= c <= 'F'
    ensures 'A' <= c <= 'F' ==> SymbolOf(c) == c as int - 'A' as int
  {
  }

  /** The observation length is the length of the token's longest A-F
      prefix: every character before it is a symbol, and the character at
      it (if any) is not. */
  lemma {:induction false} PrefixLenIsLongest(tok: string)
    ensures forall j :: 0 <= j < PrefixLen(tok) ==> SymbolOf(tok[j]) >= 0
    ensures PrefixLen(tok) < |tok| ==> SymbolOf(tok[PrefixLen(tok)]) < 0
    decreases |tok|
  {
    if |tok| > 0 && SymbolOf(tok[0]) >= 0 {
      PrefixLenIsLongest(tok[1..]);
      forall j | 0 < j < PrefixLen(tok)
        ensures tok[j] == tok[1..][j - 1]
      {
      }
    }
  }

  /** When no token is skipped (fscanf's "%s" never yields an empty token or
      one starting with a newline), every token yields exactly one
      observation, in input order. */
  lemma {:induction false} KeptAll(tokens: seq<string>)
    requires forall k :: 0 <= k < |tokens| ==> !Skipped(tokens[k])
    ensures Kept(tokens) == tokens
    decreases |tokens|
  {
    if |tokens| > 0 {
      KeptAll(tokens[..|tokens| - 1]);
    }
  }

  /** Every stored symbol is in [0, 6). */
  lemma ParsedSymbolsInRange(now: Observation, before: Observation, tok: string)
    requires Parsed(now, before, tok)
    ensures 0 <= now.seqNum <= |now.buffer|
    ensures forall j :: 0 <= j < now.seqNum ==> 0 <= now.buffer[j] < 6
  {
    PrefixLenIsLongest(tok);
    forall j | 0 <= j < now.seqNum
      ensures 0 <= now.buffer[j] < 6
    {
      SymbolOfSpec(tok[j]);
    }
  }
}
