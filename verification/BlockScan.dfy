/** How a validator reads gateway logs off a chain: block by block, poll after poll. */
module BlockScan {
  import opened Base

  datatype Log = Log(
    address: Address, topics: seq<nat>, data: Bytes,
    blockNumber: Option<nat>, blockHash: Option<nat>, transactionHash: Option<nat>)

  datatype Receipt = Receipt(status: Option<nat>, logs: seq<Log>)

  /** What the node serves: transactions per block and receipts per transaction, where present. */
  datatype Chain = Chain(blocks: map<nat, seq<nat>>, receipts: map<nat, Receipt>)

  datatype TopicFilter = Value(topic: Option<nat>) | Array(topics: seq<Option<nat>>)

  datatype Exception = Exception(blockNumber: nat, blockHash: nat, replacementChainId: nat, replacementBytes: Bytes)

  /** What a scan looks for: logs of the gateway whose topics pass, corrected by the exceptions. */
  datatype Scan = Scan(gateway: Address, topics: seq<Option<TopicFilter>>, exceptions: map<nat, Exception>)

  // ----- exceptions

  function TransformLog(exceptions: map<nat, Exception>, log: Log): Option<Log> {
    if log.transactionHash.Some? && log.transactionHash.value in exceptions then
      var except := exceptions[log.transactionHash.value];
      if log.blockNumber == Some(except.blockNumber) && log.blockHash == Some(except.blockHash) && |log.topics| == 2
      then Some(log.(topics := log.topics[1 := except.replacementChainId], data := except.replacementBytes))
      else Some(log)
    else Some(log)
  }

  /** The exception names this very log's block and transaction, and the log has a topic to replace. */
  predicate IsException(exceptions: map<nat, Exception>, log: Log) {
    && log.transactionHash.Some? && log.transactionHash.value in exceptions && |log.topics| == 2
    && var except := exceptions[log.transactionHash.value];
       log.blockNumber == Some(except.blockNumber) && log.blockHash == Some(except.blockHash)
  }

  /** Exactly which logs change, and to what: those an exception names get its chain id as second topic and its
      bytes as data, and keep all else; every other log stays as it is. */
  lemma TransformExactly(exceptions: map<nat, Exception>, log: Log)
    ensures TransformLog(exceptions, log).Some?
    ensures var after := TransformLog(exceptions, log).value;
            && (!IsException(exceptions, log) ==> after == log)
            && (IsException(exceptions, log) ==>
                  var except := exceptions[log.transactionHash.value];
                  && after.topics == [log.topics[0], except.replacementChainId] && after.data == except.replacementBytes
                  && after.address == log.address && after.blockNumber == log.blockNumber
                  && after.blockHash == log.blockHash && after.transactionHash == log.transactionHash)
  {
  }

  lemma TransformIsIdempotent(exceptions: map<nat, Exception>, log: Log)
    ensures TransformLog(exceptions, log).Some?
    ensures TransformLog(exceptions, TransformLog(exceptions, log).value) == TransformLog(exceptions, log)
  {
    var once := TransformLog(exceptions, log).value;
    if once != log {
      var topic := exceptions[log.transactionHash.value].replacementChainId;
      assert once.topics[1 := topic] == once.topics;
    }
  }

  // ----- what a scan should find

  predicate TopicPasses(filter: TopicFilter, topic: nat) {
    match filter
    case Value(wanted) => wanted.None? || wanted.value == topic
    case Array(wanted) => Some(topic) in wanted
  }

  predicate Passes(scan: Scan, log: Log) {
    && log.address == scan.gateway
    && forall i :: 0 <= i < |scan.topics| && scan.topics[i].Some? ==>
                     i < |log.topics| && TopicPasses(scan.topics[i].value, log.topics[i])
  }

  predicate Succeeded(receipt: Receipt) {
    receipt.status == Some(1)
  }

  function LogsOf(scan: Scan, logs: seq<Log>): seq<Log> {
    if logs == [] then []
    else
      var last := logs[|logs| - 1];
      LogsOf(scan, logs[..|logs| - 1]) + if Passes(scan, last) then [TransformLog(scan.exceptions, last).value] else []
  }

  function LogsOfTransaction(scan: Scan, chain: Chain, hash: nat): seq<Log> {
    if hash in chain.receipts && Succeeded(chain.receipts[hash]) then LogsOf(scan, chain.receipts[hash].logs) else []
  }

  function LogsOfTransactions(scan: Scan, chain: Chain, hashes: seq<nat>): seq<Log> {
    if hashes == [] then []
    else LogsOfTransactions(scan, chain, hashes[..|hashes| - 1]) + LogsOfTransaction(scan, chain, hashes[|hashes| - 1])
  }

  function LogsOfBlock(scan: Scan, chain: Chain, block: nat): seq<Log> {
    if block in chain.blocks then LogsOfTransactions(scan, chain, chain.blocks[block]) else []
  }

  /** The logs of the blocks from `from` up to but excluding `end`, in chain order. */
  function LogsBetween(scan: Scan, chain: Chain, from: nat, end: nat): seq<Log> {
    if end <= from then [] else LogsBetween(scan, chain, from, end - 1) + LogsOfBlock(scan, chain, end - 1)
  }

  // ----- the scan

  method GetLogsFromBlocks(scan: Scan, chain: Chain, from: nat, to: nat) returns (result: seq<Log>)
    ensures result == LogsBetween(scan, chain, from, to + 1)
  {
    result := [];
    var block := from;
    while block < to + 1
      invariant from <= block && (block <= to + 1 || block == from)
      invariant result == LogsBetween(scan, chain, from, block)
    {
      var found := [];
      if block in chain.blocks {
        found := LogsFromTransactions(scan, chain, chain.blocks[block]);
      }
      assert found == LogsOfBlock(scan, chain, block);
      result := result + found;
      block := block + 1;
    }
  }

  method LogsFromTransactions(scan: Scan, chain: Chain, hashes: seq<nat>) returns (result: seq<Log>)
    ensures result == LogsOfTransactions(scan, chain, hashes)
  {
    result := [];
    for i := 0 to |hashes|
      invariant result == LogsOfTransactions(scan, chain, hashes[..i])
    {
      assert hashes[..i + 1][..i] == hashes[..i];
      if hashes[i] in chain.receipts {
        var receipt := chain.receipts[hashes[i]];
        if receipt.status.None? || receipt.status.value != 1 {
          continue;
        }
        var found := LogsFromReceipt(scan, receipt.logs);
        result := result + found;
      }
    }
    assert hashes[..|hashes|] == hashes;
  }

  method LogsFromReceipt(scan: Scan, logs: seq<Log>) returns (result: seq<Log>)
    ensures result == LogsOf(scan, logs)
  {
    result := [];
    for i := 0 to |logs|
      invariant result == LogsOf(scan, logs[..i])
    {
      var log := logs[i];
      assert logs[..i + 1][..i] == logs[..i];
      if log.address != scan.gateway {
        continue;
      }
      var matches := MatchTopics(scan.topics, log.topics);
      if matches {
        var transformed := TransformLog(scan.exceptions, log);
        if transformed.Some? {
          result := result + [transformed.value];
        }
      }
    }
    assert logs[..|logs|] == logs;
  }

  method MatchTopics(filters: seq<Option<TopicFilter>>, topics: seq<nat>) returns (matches: bool)
    ensures matches <==> forall i :: 0 <= i < |filters| ==> IsWanted(filters[i], topics, i)
  {
    matches := true;
    for i := 0 to |filters|
      invariant matches
      invariant forall k :: 0 <= k < i && filters[k].Some? ==> k < |topics| && TopicPasses(filters[k].value, topics[k])
    {
      if filters[i].Some? {
        if i >= |topics| {
          return false;
        }
        var matchThisTopic;
        match filters[i].value {
          case Value(wanted) => matchThisTopic := wanted.None? || wanted.value == topics[i];
          case Array(wanted) =>
            matchThisTopic := exists j :: 0 <= j < |wanted| && wanted[j].Some? && wanted[j].value == topics[i];
            AnyIsMember(wanted, topics[i]);
        }
        if !matchThisTopic {
          return false;
        }
      }
    }
  }

  lemma AnyIsMember(wanted: seq<Option<nat>>, topic: nat)
    ensures (exists j :: 0 <= j < |wanted| && wanted[j].Some? && wanted[j].value == topic) <==> Some(topic) in wanted
  {
    if Some(topic) in wanted {
      var j :| 0 <= j < |wanted| && wanted[j] == Some(topic);
    }
    if j :| 0 <= j < |wanted| && wanted[j].Some? && wanted[j].value == topic {
      assert wanted[j] == Some(topic);
    }
  }

  /** Corrects what was found once more, as `get_events` does before parsing. */
  function TransformAll(exceptions: map<nat, Exception>, logs: seq<Log>): seq<Log> {
    if logs == [] then []
    else
      var last := TransformLog(exceptions, logs[|logs| - 1]);
      TransformAll(exceptions, logs[..|logs| - 1]) + if last.Some? then [last.value] else []
  }

  // ----- properties of a scan

  lemma Associative<T>(a: seq<T>, b: seq<T>, c: seq<T>)
    ensures (a + b) + c == a + (b + c)
  {
  }

  /** Adjacent ranges concatenate. */
  lemma {:induction false} RangesConcatenate(scan: Scan, chain: Chain, from: nat, mid: nat, end: nat)
    requires from <= mid <= end
    ensures LogsBetween(scan, chain, from, end) == LogsBetween(scan, chain, from, mid) + LogsBetween(scan, chain, mid, end)
    decreases end
  {
    if mid < end {
      RangesConcatenate(scan, chain, from, mid, end - 1);
      Associative(LogsBetween(scan, chain, from, mid), LogsBetween(scan, chain, mid, end - 1), LogsOfBlock(scan, chain, end - 1));
    }
  }

  /** A log found is the correction of a passing gateway log of a successful transaction in a block of
      the range. */
  ghost predicate IsSource(scan: Scan, chain: Chain, block: nat, i: nat, j: nat, source: Log) {
    && block in chain.blocks && i < |chain.blocks[block]|
    && var hash := chain.blocks[block][i];
    && hash in chain.receipts && chain.receipts[hash].status == Some(1)
    && j < |chain.receipts[hash].logs| && chain.receipts[hash].logs[j] == source
    && source.address == scan.gateway
    && forall k :: 0 <= k < |scan.topics| ==> IsWanted(scan.topics[k], source.topics, k)
  }

  /** Without a filter anything will do, even no topic; a filter asks for a topic, and for one of its values if it
      names any. */
  predicate IsWanted(filter: Option<TopicFilter>, topics: seq<nat>, k: nat) {
    match filter
    case None => true
    case Some(Value(None)) => k < |topics|
    case Some(Value(Some(wanted))) => k < |topics| && topics[k] == wanted
    case Some(Array(wanted)) => k < |topics| && Some(topics[k]) in wanted
  }

  lemma {:induction false} FoundInReceipt(scan: Scan, logs: seq<Log>, log: Log)
    ensures log in LogsOf(scan, logs) <==>
            exists j :: 0 <= j < |logs| && Passes(scan, logs[j]) && TransformLog(scan.exceptions, logs[j]).value == log
  {
    if logs != [] {
      var n := |logs| - 1;
      FoundInReceipt(scan, logs[..n], log);
      if j :| 0 <= j < |logs| && Passes(scan, logs[j]) && TransformLog(scan.exceptions, logs[j]).value == log {
        if j < n {
          assert logs[..n][j] == logs[j];
        }
      }
    }
  }

  lemma {:induction false} FoundInTransactions(scan: Scan, chain: Chain, hashes: seq<nat>, log: Log)
    ensures log in LogsOfTransactions(scan, chain, hashes) <==>
            exists i :: 0 <= i < |hashes| && log in LogsOfTransaction(scan, chain, hashes[i])
  {
    if hashes != [] {
      var n := |hashes| - 1;
      FoundInTransactions(scan, chain, hashes[..n], log);
      if i :| 0 <= i < |hashes| && log in LogsOfTransaction(scan, chain, hashes[i]) {
        if i < n {
          assert hashes[..n][i] == hashes[i];
        }
      }
    }
  }

  lemma {:induction false} FoundInRange(scan: Scan, chain: Chain, from: nat, end: nat, log: Log)
    ensures log in LogsBetween(scan, chain, from, end) <==>
            exists block :: from <= block < end && log in LogsOfBlock(scan, chain, block)
    decreases end
  {
    if from < end {
      FoundInRange(scan, chain, from, end - 1, log);
    }
  }

  lemma SourceIsFound(scan: Scan, chain: Chain, block: nat, i: nat, j: nat, source: Log)
    requires IsSource(scan, chain, block, i, j, source)
    ensures TransformLog(scan.exceptions, source).value in LogsOfBlock(scan, chain, block)
  {
    var log := TransformLog(scan.exceptions, source).value;
    FoundInReceipt(scan, chain.receipts[chain.blocks[block][i]].logs, log);
    assert log in LogsOfTransaction(scan, chain, chain.blocks[block][i]);
    FoundInTransactions(scan, chain, chain.blocks[block], log);
  }

  lemma FoundHasSource(scan: Scan, chain: Chain, block: nat, log: Log) returns (i: nat, j: nat, source: Log)
    requires log in LogsOfBlock(scan, chain, block)
    ensures IsSource(scan, chain, block, i, j, source) && TransformLog(scan.exceptions, source).value == log
  {
    var hashes := chain.blocks[block];
    FoundInTransactions(scan, chain, hashes, log);
    i :| 0 <= i < |hashes| && log in LogsOfTransaction(scan, chain, hashes[i]);
    var logs := chain.receipts[hashes[i]].logs;
    FoundInReceipt(scan, logs, log);
    j :| 0 <= j < |logs| && Passes(scan, logs[j]) && TransformLog(scan.exceptions, logs[j]).value == log;
    source := logs[j];
  }

  /** A scan finds exactly the corrections of the passing logs in its range. */
  lemma FoundIff(scan: Scan, chain: Chain, from: nat, end: nat, log: Log)
    ensures log in LogsBetween(scan, chain, from, end) <==>
            exists block: nat, i: nat, j: nat, source :: from <= block < end && IsSource(scan, chain, block, i, j, source)
                                                         && TransformLog(scan.exceptions, source).value == log
  {
    FoundInRange(scan, chain, from, end, log);
    if log in LogsBetween(scan, chain, from, end) {
      var block: nat :| from <= block < end && log in LogsOfBlock(scan, chain, block);
      var i, j, source := FoundHasSource(scan, chain, block, log);
    }
    forall block: nat, i: nat, j: nat, source | from <= block < end && IsSource(scan, chain, block, i, j, source)
      ensures TransformLog(scan.exceptions, source).value in LogsOfBlock(scan, chain, block)
    {
      SourceIsFound(scan, chain, block, i, j, source);
    }
  }

  // ----- order and number

  /** Where a log stands: its block, its transaction there and its place in the receipt. */
  datatype Place = Place(block: nat, transaction: nat, index: nat)

  predicate Before(a: Place, b: Place) {
    || a.block < b.block
    || (a.block == b.block && (a.transaction < b.transaction || (a.transaction == b.transaction && a.index < b.index)))
  }

  ghost predicate IsPlace(scan: Scan, chain: Chain, place: Place) {
    && place.block in chain.blocks && place.transaction < |chain.blocks[place.block]|
    && var hash := chain.blocks[place.block][place.transaction];
    && hash in chain.receipts && place.index < |chain.receipts[hash].logs|
    && IsSource(scan, chain, place.block, place.transaction, place.index, chain.receipts[hash].logs[place.index])
  }

  function LogAt(chain: Chain, place: Place): Log
    requires place.block in chain.blocks && place.transaction < |chain.blocks[place.block]|
    requires var hash := chain.blocks[place.block][place.transaction];
             hash in chain.receipts && place.index < |chain.receipts[hash].logs|
  {
    chain.receipts[chain.blocks[place.block][place.transaction]].logs[place.index]
  }

  ghost predicate InOrder(places: seq<Place>) {
    forall i, j :: 0 <= i < j < |places| ==> Before(places[i], places[j])
  }

  /** The logs are the corrections of those at the places, one for one. */
  ghost predicate Corrects(scan: Scan, chain: Chain, places: seq<Place>, logs: seq<Log>) {
    && |logs| == |places|
    && forall k :: 0 <= k < |places| ==>
                     IsPlace(scan, chain, places[k]) && logs[k] == TransformLog(scan.exceptions, LogAt(chain, places[k])).value
  }

  lemma PlacesJoin(scan: Scan, chain: Chain, places: seq<Place>, logs: seq<Log>, places': seq<Place>, logs': seq<Log>)
    requires Corrects(scan, chain, places, logs) && Corrects(scan, chain, places', logs')
    requires InOrder(places) && InOrder(places')
    requires forall i, j :: 0 <= i < |places| && 0 <= j < |places'| ==> Before(places[i], places'[j])
    ensures Corrects(scan, chain, places + places', logs + logs') && InOrder(places + places')
  {
  }

  lemma {:induction false} ReceiptPlaces(scan: Scan, chain: Chain, block: nat, transaction: nat, n: nat) returns (places: seq<Place>)
    requires block in chain.blocks && transaction < |chain.blocks[block]|
    requires var hash := chain.blocks[block][transaction];
             hash in chain.receipts && Succeeded(chain.receipts[hash]) && n <= |chain.receipts[hash].logs|
    ensures Corrects(scan, chain, places, LogsOf(scan, chain.receipts[chain.blocks[block][transaction]].logs[..n])) && InOrder(places)
    ensures forall place :: place in places <==>
                            place.block == block && place.transaction == transaction && place.index < n && IsPlace(scan, chain, place)
  {
    var logs := chain.receipts[chain.blocks[block][transaction]].logs;
    if n == 0 {
      places := [];
    } else {
      places := ReceiptPlaces(scan, chain, block, transaction, n - 1);
      assert logs[..n][..n - 1] == logs[..n - 1];
      if Passes(scan, logs[n - 1]) {
        var last := Place(block, transaction, n - 1);
        assert IsPlace(scan, chain, last);
        assert forall i :: 0 <= i < |places| ==> places[i] in places;
        PlacesJoin(scan, chain, places, LogsOf(scan, logs[..n - 1]), [last], [TransformLog(scan.exceptions, logs[n - 1]).value]);
        places := places + [last];
      }
    }
  }

  lemma {:induction false} BlockPlaces(scan: Scan, chain: Chain, block: nat, n: nat) returns (places: seq<Place>)
    requires block in chain.blocks && n <= |chain.blocks[block]|
    ensures Corrects(scan, chain, places, LogsOfTransactions(scan, chain, chain.blocks[block][..n])) && InOrder(places)
    ensures forall place :: place in places <==> place.block == block && place.transaction < n && IsPlace(scan, chain, place)
  {
    var hashes := chain.blocks[block];
    if n == 0 {
      places := [];
    } else {
      places := BlockPlaces(scan, chain, block, n - 1);
      assert hashes[..n][..n - 1] == hashes[..n - 1];
      assert forall i :: 0 <= i < |places| ==> places[i] in places;
      if hashes[n - 1] in chain.receipts && Succeeded(chain.receipts[hashes[n - 1]]) {
        var logs := chain.receipts[hashes[n - 1]].logs;
        var more := ReceiptPlaces(scan, chain, block, n - 1, |logs|);
        assert logs[..|logs|] == logs;
        assert forall i :: 0 <= i < |more| ==> more[i] in more;
        PlacesJoin(scan, chain, places, LogsOfTransactions(scan, chain, hashes[..n - 1]), more, LogsOf(scan, logs));
        places := places + more;
      }
    }
  }

  /** A scan yields the corrections of exactly the passing logs in its range, each once, in the order of blocks,
      of transactions in them and of logs in their receipts. */
  lemma {:induction false} ScanIsInOrder(scan: Scan, chain: Chain, from: nat, end: nat) returns (places: seq<Place>)
    ensures Corrects(scan, chain, places, LogsBetween(scan, chain, from, end)) && InOrder(places)
    ensures forall place :: place in places <==> from <= place.block < end && IsPlace(scan, chain, place)
    decreases end
  {
    places := [];
    if from < end {
      places := ScanIsInOrder(scan, chain, from, end - 1);
      assert forall i :: 0 <= i < |places| ==> places[i] in places;
      if end - 1 in chain.blocks {
        var hashes := chain.blocks[end - 1];
        var more := BlockPlaces(scan, chain, end - 1, |hashes|);
        assert hashes[..|hashes|] == hashes;
        assert forall i :: 0 <= i < |more| ==> more[i] in more;
        PlacesJoin(scan, chain, places, LogsBetween(scan, chain, from, end - 1), more, LogsOfBlock(scan, chain, end - 1));
        places := places + more;
      }
    }
  }

  predicate Corrected(exceptions: map<nat, Exception>, logs: seq<Log>) {
    forall i :: 0 <= i < |logs| ==> TransformLog(exceptions, logs[i]) == Some(logs[i])
  }

  lemma {:induction false} TransformKeepsCorrected(exceptions: map<nat, Exception>, logs: seq<Log>)
    requires Corrected(exceptions, logs)
    ensures TransformAll(exceptions, logs) == logs
  {
    if logs != [] {
      TransformKeepsCorrected(exceptions, logs[..|logs| - 1]);
    }
  }

  /** The second correction in `get_events` changes nothing of what a scan found. */
  lemma SecondPassIsIdentity(scan: Scan, chain: Chain, from: nat, end: nat)
    ensures TransformAll(scan.exceptions, LogsBetween(scan, chain, from, end)) == LogsBetween(scan, chain, from, end)
  {
    var logs := LogsBetween(scan, chain, from, end);
    forall k | 0 <= k < |logs|
      ensures TransformLog(scan.exceptions, logs[k]) == Some(logs[k])
    {
      FoundInRange(scan, chain, from, end, logs[k]);
      var block: nat :| from <= block < end && logs[k] in LogsOfBlock(scan, chain, block);
      var i, j, source := FoundHasSource(scan, chain, block, logs[k]);
      TransformIsIdempotent(scan.exceptions, source);
    }
    TransformKeepsCorrected(scan.exceptions, logs);
  }

  // ----- polling

  /** The head the node reports, if it answers, and whether fetching the logs then succeeds. */
  datatype Poll = Poll(head: Option<nat>, fetched: bool)

  /** A head below the scan-behind distance makes the subtraction panic, which ends the stream. */
  predicate Answerable(scanBehind: nat, poll: Poll) {
    poll.head.Some? ==> scanBehind <= poll.head.value
  }

  predicate Advances(scanBehind: nat, current: nat, poll: Poll)
    requires Answerable(scanBehind, poll)
  {
    poll.head.Some? && poll.head.value - scanBehind > current + 1
  }

  /** The position after a poll: the reported head, whatever was scanned. */
  function PollEffect(scanBehind: nat, current: nat, poll: Poll): nat
    requires Answerable(scanBehind, poll)
  {
    if Advances(scanBehind, current, poll) then poll.head.value else current
  }

  /** The logs a poll yields. */
  function PollYield(scan: Scan, chain: Chain, scanBehind: nat, current: nat, poll: Poll): seq<Log>
    requires Answerable(scanBehind, poll)
  {
    if Advances(scanBehind, current, poll) && poll.fetched
    then LogsBetween(scan, chain, current + 1, poll.head.value - scanBehind + 1) else []
  }

  /** A poll scans a block. */
  predicate PollScans(scanBehind: nat, current: nat, poll: Poll, block: nat)
    requires Answerable(scanBehind, poll)
  {
    Advances(scanBehind, current, poll) && poll.fetched && current + 1 <= block <= poll.head.value - scanBehind
  }

  predicate AllAnswerable(scanBehind: nat, polls: seq<Poll>) {
    forall i :: 0 <= i < |polls| ==> Answerable(scanBehind, polls[i])
  }

  function Position(scanBehind: nat, current: nat, polls: seq<Poll>): nat
    requires AllAnswerable(scanBehind, polls)
  {
    if polls == [] then current
    else PollEffect(scanBehind, Position(scanBehind, current, polls[..|polls| - 1]), polls[|polls| - 1])
  }

  function Yielded(scan: Scan, chain: Chain, scanBehind: nat, current: nat, polls: seq<Poll>): seq<Log>
    requires AllAnswerable(scanBehind, polls)
  {
    if polls == [] then []
    else
      var earlier := polls[..|polls| - 1];
      Yielded(scan, chain, scanBehind, current, earlier) +
      PollYield(scan, chain, scanBehind, Position(scanBehind, current, earlier), polls[|polls| - 1])
  }

  /** The poll after the first k scans a block. */
  predicate ScansAt(scanBehind: nat, current: nat, polls: seq<Poll>, k: nat, block: nat)
    requires AllAnswerable(scanBehind, polls) && k < |polls|
  {
    PollScans(scanBehind, Position(scanBehind, current, polls[..k]), polls[k], block)
  }

  predicate Scanned(scanBehind: nat, current: nat, polls: seq<Poll>, block: nat)
    requires AllAnswerable(scanBehind, polls)
  {
    exists k :: 0 <= k < |polls| && ScansAt(scanBehind, current, polls, k, block)
  }

  /** Exactly when a poll moves the position, and what it then yields: with a head, and at least two blocks after
      the position that are far enough behind it, it moves to the head and yields the logs of these blocks, unless
      they cannot be fetched. */
  lemma PollMovesIff(scan: Scan, chain: Chain, scanBehind: nat, current: nat, poll: Poll)
    requires Answerable(scanBehind, poll)
    ensures var moves := poll.head.Some? && current + 2 + scanBehind <= poll.head.value;
            && PollEffect(scanBehind, current, poll) == (if moves then poll.head.value else current)
            && PollYield(scan, chain, scanBehind, current, poll) ==
               (if moves && poll.fetched then LogsBetween(scan, chain, current + 1, poll.head.value + 1 - scanBehind) else [])
            && forall block: nat :: PollScans(scanBehind, current, poll, block) <==>
                                    moves && poll.fetched && current < block && block + scanBehind <= poll.head.value
  {
  }

  class EventListener {
    const scan: Scan
    const scanBehind: nat
    var currentBlock: nat

    constructor (scan: Scan, scanBehind: nat)
      ensures this.scan == scan && this.scanBehind == scanBehind && currentBlock == 0
    {
      this.scan, this.scanBehind, currentBlock := scan, scanBehind, 0;
    }

    /** Not `ok` is a panic. */
    method PollNextEvents(chain: Chain, poll: Poll) returns (ok: bool, events: seq<Log>)
      modifies this
      ensures ok <==> poll.head.None? || scanBehind <= poll.head.value
      ensures ok ==> currentBlock == PollEffect(scanBehind, old(currentBlock), poll)
      ensures ok ==> events == PollYield(scan, chain, scanBehind, old(currentBlock), poll)
      ensures !ok ==> currentBlock == old(currentBlock) && events == []
    {
      ok, events := true, [];
      if poll.head.None? {
        return;
      }
      if poll.head.value < scanBehind {
        return false, [];
      }
      var newBlock := poll.head.value;
      var minBlock := currentBlock + 1;
      var maxBlock := newBlock - scanBehind;
      if maxBlock <= minBlock {
        return;
      }
      if poll.fetched {
        events := GetLogsFromBlocks(scan, chain, minBlock, maxBlock);
        SecondPassIsIdentity(scan, chain, minBlock, maxBlock + 1);
        events := TransformAll(scan.exceptions, events);
      }
      currentBlock := newBlock;
    }

    /** Starts one below the first head, so that this block is scanned too, and polls until a panic
        ends the stream; `answered` polls come before it. Without a first head, or with head zero, the
        stream ends at once. */
    method Listen(chain: Chain, first: Option<nat>, polls: seq<Poll>)
      returns (started: bool, answered: nat, events: seq<Log>)
      modifies this
      ensures started <==> first.Some? && first.value > 0
      ensures !started ==> answered == 0 && events == [] && currentBlock == old(currentBlock)
      ensures answered <= |polls| && AllAnswerable(scanBehind, polls[..answered])
      ensures started && answered < |polls| ==> !Answerable(scanBehind, polls[answered])
      ensures started ==> currentBlock == Position(scanBehind, first.value - 1, polls[..answered])
      ensures started ==> events == Yielded(scan, chain, scanBehind, first.value - 1, polls[..answered])
    {
      started := first.Some? && first.value > 0;
      answered, events := 0, [];
      if !started {
        return;
      }
      currentBlock := first.value - 1;
      while answered < |polls|
        invariant answered <= |polls| && AllAnswerable(scanBehind, polls[..answered])
        invariant currentBlock == Position(scanBehind, first.value - 1, polls[..answered])
        invariant events == Yielded(scan, chain, scanBehind, first.value - 1, polls[..answered])
      {
        var ok, newEvents := PollNextEvents(chain, polls[answered]);
        if !ok {
          return;
        }
        assert polls[..answered + 1][..answered] == polls[..answered];
        events := events + newEvents;
        answered := answered + 1;
      }
    }
  }

  // ----- properties of polling

  /** Every poll that moved the position also fetched, with no scan-behind distance. */
  ghost predicate Lossless(scanBehind: nat, current: nat, polls: seq<Poll>)
    requires AllAnswerable(scanBehind, polls)
  {
    forall k :: 0 <= k < |polls| &&
                Position(scanBehind, current, polls[..k + 1]) != Position(scanBehind, current, polls[..k]) ==>
                  scanBehind == 0 && polls[k].fetched
  }

  lemma {:induction false} PositionGrows(scanBehind: nat, current: nat, polls: seq<Poll>, k: nat)
    requires AllAnswerable(scanBehind, polls) && k <= |polls|
    ensures current <= Position(scanBehind, current, polls[..k]) <= Position(scanBehind, current, polls)
    decreases |polls|
  {
    if k < |polls| {
      var earlier := polls[..|polls| - 1];
      PositionGrows(scanBehind, current, earlier, k);
      assert earlier[..k] == polls[..k];
    } else {
      assert polls[..k] == polls;
      if polls != [] {
        PositionGrows(scanBehind, current, polls[..k - 1], k - 1);
        assert polls[..k - 1][..k - 1] == polls[..k - 1];
      }
    }
  }

  /** The ranges of successive polls ascend and never overlap, and each poll scans only blocks between
      the position before it and the position after it. */
  lemma ScansAscend(scanBehind: nat, current: nat, polls: seq<Poll>, k: nat, b: nat)
    requires AllAnswerable(scanBehind, polls) && k < |polls| && ScansAt(scanBehind, current, polls, k, b)
    ensures Position(scanBehind, current, polls[..k]) < b <= Position(scanBehind, current, polls[..k + 1])
    ensures current < b <= Position(scanBehind, current, polls)
    ensures forall k': nat, b': nat :: k < k' < |polls| && ScansAt(scanBehind, current, polls, k', b') ==> b < b'
  {
    assert polls[..k + 1][..k] == polls[..k];
    PositionGrows(scanBehind, current, polls, k + 1);
    PositionGrows(scanBehind, current, polls, k);
    forall k': nat, b': nat | k < k' < |polls| && ScansAt(scanBehind, current, polls, k', b')
      ensures b < b'
    {
      PositionsOrdered(scanBehind, current, polls, k + 1, k');
    }
  }

  lemma PositionsOrdered(scanBehind: nat, current: nat, polls: seq<Poll>, k: nat, k': nat)
    requires AllAnswerable(scanBehind, polls) && k <= k' <= |polls|
    ensures Position(scanBehind, current, polls[..k]) <= Position(scanBehind, current, polls[..k'])
  {
    assert polls[..k'][..k] == polls[..k];
    PositionGrows(scanBehind, current, polls[..k'], k);
  }

  lemma LosslessPrefix(scanBehind: nat, current: nat, polls: seq<Poll>)
    requires polls != [] && AllAnswerable(scanBehind, polls) && Lossless(scanBehind, current, polls)
    ensures Lossless(scanBehind, current, polls[..|polls| - 1])
    ensures Position(scanBehind, current, polls) != Position(scanBehind, current, polls[..|polls| - 1]) ==>
              scanBehind == 0 && polls[|polls| - 1].fetched
  {
    var n := |polls| - 1;
    var earlier := polls[..n];
    assert polls[..n + 1] == polls;
    forall k | 0 <= k < n && Position(scanBehind, current, earlier[..k + 1]) != Position(scanBehind, current, earlier[..k])
      ensures scanBehind == 0 && earlier[k].fetched
    {
      assert earlier[..k + 1] == polls[..k + 1] && earlier[..k] == polls[..k];
    }
  }

  /** A lossless run yields, in chain order and without repetition, exactly the logs of all blocks from
      the first head to the position. */
  lemma {:induction false} LosslessYieldsAll(scan: Scan, chain: Chain, scanBehind: nat, current: nat, polls: seq<Poll>)
    requires AllAnswerable(scanBehind, polls) && Lossless(scanBehind, current, polls)
    ensures Yielded(scan, chain, scanBehind, current, polls) ==
            LogsBetween(scan, chain, current + 1, Position(scanBehind, current, polls) + 1)
  {
    if polls != [] {
      var earlier, last := polls[..|polls| - 1], polls[|polls| - 1];
      LosslessPrefix(scanBehind, current, polls);
      LosslessYieldsAll(scan, chain, scanBehind, current, earlier);
      assert earlier[..0] == [];
      PositionGrows(scanBehind, current, earlier, 0);
      var position, after := Position(scanBehind, current, earlier), Position(scanBehind, current, polls);
      PollYieldsItsRange(scan, chain, scanBehind, position, last);
      RangesConcatenate(scan, chain, current + 1, position + 1, after + 1);
    }
  }

  lemma PollYieldsItsRange(scan: Scan, chain: Chain, scanBehind: nat, current: nat, poll: Poll)
    requires Answerable(scanBehind, poll)
    requires PollEffect(scanBehind, current, poll) != current ==> scanBehind == 0 && poll.fetched
    ensures current <= PollEffect(scanBehind, current, poll)
    ensures PollYield(scan, chain, scanBehind, current, poll) ==
            LogsBetween(scan, chain, current + 1, PollEffect(scanBehind, current, poll) + 1)
  {
  }

  /** Every block from the first head to the position is scanned exactly when every poll that moved the
      position fetched its logs and there is no scan-behind distance. */
  lemma AllScannedIffLossless(scanBehind: nat, current: nat, polls: seq<Poll>)
    requires AllAnswerable(scanBehind, polls)
    ensures (forall b: nat {:trigger Scanned(scanBehind, current, polls, b)} ::
               current < b <= Position(scanBehind, current, polls) ==> Scanned(scanBehind, current, polls, b)) <==>
            Lossless(scanBehind, current, polls)
  {
    if Lossless(scanBehind, current, polls) {
      forall b: nat {:trigger Scanned(scanBehind, current, polls, b)} | current < b <= Position(scanBehind, current, polls)
        ensures Scanned(scanBehind, current, polls, b)
      {
        var k := ScannedWhen(scanBehind, current, polls, b);
      }
    }
    if k :| 0 <= k < |polls|
            && Position(scanBehind, current, polls[..k + 1]) != Position(scanBehind, current, polls[..k])
            && (scanBehind > 0 || !polls[k].fetched) {
      LastBlockLost(scanBehind, current, polls, k);
    }
  }

  lemma {:induction false} ScannedWhen(scanBehind: nat, current: nat, polls: seq<Poll>, b: nat) returns (k: nat)
    requires AllAnswerable(scanBehind, polls) && Lossless(scanBehind, current, polls)
    requires current < b <= Position(scanBehind, current, polls)
    ensures k < |polls| && ScansAt(scanBehind, current, polls, k, b)
  {
    var n := |polls| - 1;
    LosslessPrefix(scanBehind, current, polls);
    if b <= Position(scanBehind, current, polls[..n]) {
      k := ScannedWhen(scanBehind, current, polls[..n], b);
      assert polls[..n][..k] == polls[..k];
    } else {
      k := n;
    }
  }

  /** A poll that moves the position but leaves logs behind loses the block it moved to for good. */
  lemma LastBlockLost(scanBehind: nat, current: nat, polls: seq<Poll>, k: nat)
    requires AllAnswerable(scanBehind, polls) && k < |polls|
    requires Position(scanBehind, current, polls[..k + 1]) != Position(scanBehind, current, polls[..k])
    requires scanBehind > 0 || !polls[k].fetched
    ensures current < Position(scanBehind, current, polls[..k + 1]) <= Position(scanBehind, current, polls)
    ensures !Scanned(scanBehind, current, polls, Position(scanBehind, current, polls[..k + 1]))
  {
    var b := Position(scanBehind, current, polls[..k + 1]);
    assert polls[..k + 1][..k] == polls[..k];
    PositionGrows(scanBehind, current, polls, k);
    PositionGrows(scanBehind, current, polls, k + 1);
    forall k': nat | k' < |polls|
      ensures !ScansAt(scanBehind, current, polls, k', b)
    {
      if k' < k {
        PositionsOrdered(scanBehind, current, polls, k' + 1, k);
        NothingBeyond(scanBehind, current, polls, k', b);
      } else if k < k' {
        PositionsOrdered(scanBehind, current, polls, k + 1, k');
      }
    }
  }

  /** No poll scans beyond the position it leads to. */
  lemma NothingBeyond(scanBehind: nat, current: nat, polls: seq<Poll>, k: nat, b: nat)
    requires AllAnswerable(scanBehind, polls) && k < |polls|
    requires Position(scanBehind, current, polls[..k + 1]) < b
    ensures !ScansAt(scanBehind, current, polls, k, b)
  {
    assert polls[..k + 1][..k] == polls[..k];
  }

  /** Whatever the polls, the position is at most one block short of what any of them found fit to scan. */
  lemma AtMostOneBehind(scanBehind: nat, current: nat, polls: seq<Poll>, k: nat)
    requires AllAnswerable(scanBehind, polls) && k < |polls| && polls[k].head.Some?
    ensures polls[k].head.value - scanBehind <= Position(scanBehind, current, polls) + 1
  {
    assert polls[..k + 1][..k] == polls[..k];
    PositionGrows(scanBehind, current, polls, k + 1);
  }
}
