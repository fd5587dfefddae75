/** The recent-events table of src/components/features/recent-events-table.tsx. */
module RecentEventsTable {
  import opened Wrappers
  import opened Strings
  import opened Enums
  import opened Formatters
  import opened Tables

  /** An event topic (src/lib/types/history.ts). */
  datatype Topic = Topic(kind: string, value: string)

  /** The fields of a recent event the table reads; the event's `data` payload is not shown. */
  datatype RecentEvent = RecentEvent(
    contractId: string,
    contractNickname: Option<string>,
    transactionHash: string,
    ledgerSequence: int,
    createdAt: string,
    eventType: string,
    topics: seq<Topic>,
    successful: bool,
    inSuccessfulContractCall: bool)

  /** The table's own `truncateHash`. */
  function LocalTruncateHash(hash: string): (r: string)
    ensures r == TruncateHash(hash)
  {
    if |hash| <= 12 then hash else hash[..6] + "..." + hash[|hash| - 6..]
  }

  /** `topics.filter(t => t.type === 'Sym')`. */
  function SymTopics(topics: seq<Topic>): (r: seq<Topic>)
    ensures |r| <= |topics|
    ensures forall t :: t in r ==> t in topics && t.kind == "Sym"
    ensures forall t :: t in topics && t.kind == "Sym" ==> t in r
  {
    if topics == [] then []
    else (if topics[0].kind == "Sym" then [topics[0]] else []) + SymTopics(topics[1..])
  }

  /** The filter works piecewise, so it keeps the symbol topics in their original order. */
  lemma {:induction false} SymTopicsAppend(a: seq<Topic>, b: seq<Topic>)
    ensures SymTopics(a + b) == SymTopics(a) + SymTopics(b)
  {
    if a == [] {
      assert a + b == b;
    } else {
      assert (a + b)[0] == a[0] && (a + b)[1..] == a[1..] + b;
      SymTopicsAppend(a[1..], b);
    }
  }

  /** One rendered topic line: its text, and whether it is set in a monospace font. */
  datatype TopicLine = TopicLine(text: string, monospace: bool)

  /** `renderTopics`: one line per symbol topic, monospace for values of 64 characters or more
      (the length of a hex-encoded 32-byte id). */
  function RenderTopics(e: RecentEvent): (lines: seq<TopicLine>)
    ensures |lines| == |SymTopics(e.topics)|
    ensures forall i :: 0 <= i < |lines| ==>
              lines[i].text == SymTopics(e.topics)[i].value
              && (lines[i].monospace <==> |SymTopics(e.topics)[i].value| >= 64)
  {
    var syms := SymTopics(e.topics);
    seq(|syms|, i requires 0 <= i < |syms| => TopicLine(syms[i].value, |syms[i].value| >= 64))
  }

  /** `topics.map(t => t.value)`. */
  function Values(topics: seq<Topic>): (r: seq<string>)
    ensures |r| == |topics| && forall i :: 0 <= i < |topics| ==> r[i] == topics[i].value
  {
    if topics == [] then [] else [topics[0].value] + Values(topics[1..])
  }

  /** The row key: hash, event type and the values of all topics, symbol or not, joined by ".". */
  function RowKey(e: RecentEvent): (k: string)
    ensures StartsWith(k, e.transactionHash + "." + e.eventType + ".")
    ensures |e.topics| == 0 ==> k == e.transactionHash + "." + e.eventType + "."
    ensures |e.topics| == 1 ==> k == e.transactionHash + "." + e.eventType + "." + e.topics[0].value
  {
    var head := e.transactionHash + "." + e.eventType + ".";
    assert (head + Join(Values(e.topics), "."))[..|head|] == head;
    head + Join(Values(e.topics), ".")
  }

  lemma {:induction false} JoinSnoc(parts: seq<string>, x: string, sep: string)
    ensures Join(parts + [x], sep) == if |parts| == 0 then x else Join(parts, sep) + sep + x
    decreases |parts|
  {
    if |parts| == 1 {
      assert parts + [x] == [parts[0], x];
      assert [parts[0], x][1..] == [x];
    } else if |parts| > 1 {
      assert (parts + [x])[0] == parts[0] && (parts + [x])[1..] == parts[1..] + [x];
      JoinSnoc(parts[1..], x, sep);
    }
  }

  /** A topic that is not a symbol is not shown, but it still goes into the row key. */
  lemma HiddenTopicStillKeys(e: RecentEvent, t: Topic)
    requires t.kind != "Sym"
    ensures RenderTopics(e.(topics := e.topics + [t])) == RenderTopics(e)
    ensures RowKey(e.(topics := e.topics + [t]))
            == RowKey(e) + (if |e.topics| == 0 then "" else ".") + t.value
  {
    var e' := e.(topics := e.topics + [t]);
    SymTopicsAppend(e.topics, [t]);
    assert SymTopics([t]) == [];
    assert SymTopics(e'.topics) == SymTopics(e.topics);
    var head := e.transactionHash + "." + e.eventType + ".";
    var vs := Values(e.topics);
    assert Values(e'.topics) == vs + [t.value];
    assert RowKey(e') == head + Join(vs + [t.value], ".");
    KeySnoc(head, vs, t.value);
  }

  /** A key with one more joined part: the part, after a "." unless it is the first. */
  lemma KeySnoc(head: string, parts: seq<string>, x: string)
    ensures head + Join(parts + [x], ".") == head + Join(parts, ".") + (if |parts| == 0 then "" else ".") + x
  {
    JoinSnoc(parts, x, ".");
    if |parts| == 0 {
      assert Join(parts, ".") == "";
      assert head + Join(parts, ".") + "" == head;
    } else {
      AppendAssoc(head, Join(parts, "."), ".", x);
    }
  }

  lemma AppendAssoc(a: string, b: string, c: string, d: string)
    ensures a + (b + c + d) == a + b + c + d
  {
  }

  /** One rendered row. */
  datatype EventRow = EventRow(key: string, hash: string, contract: Option<string>, topics: seq<TopicLine>,
                               date: string, status: StatusBadge)

  /** The status reflects whether the enclosing contract call succeeded; the event's own
      `successful` flag is not read. */
  function Row(loc: Locale, e: RecentEvent): (row: EventRow)
    ensures row.key == RowKey(e) && row.hash == TruncateHash(e.transactionHash)
    ensures row.topics == RenderTopics(e)
    ensures row.status.text == "Success" <==> e.inSuccessfulContractCall
  {
    EventRow(RowKey(e), LocalTruncateHash(e.transactionHash), e.contractNickname, RenderTopics(e),
             loc.dateTime(e.createdAt), Status(e.inSuccessfulContractCall))
  }

  /** Flipping the event's own `successful` flag changes nothing in its row. */
  lemma RowIgnoresOwnSuccess(loc: Locale, e: RecentEvent)
    ensures Row(loc, e.(successful := !e.successful)) == Row(loc, e)
  {
    assert RenderTopics(e.(successful := !e.successful)) == RenderTopics(e);
  }

  const InitialLimit := LIMIT_5

  datatype EventsQuery = EventsQuery(scope: QueryScope, limit: Limit)

  function Query(contractId: Option<string>, limit: Limit): (q: EventsQuery)
    ensures q.scope.OneContract? <==> Truthy(contractId)
    ensures q.limit == limit
  {
    EventsQuery(ScopeOf(contractId), limit)
  }

  function Body(loc: Locale, isLoading: bool, hasError: bool, previous: seq<RecentEvent>,
                data: Option<seq<RecentEvent>>): (b: Tables.Body<EventRow>)
    ensures b.Rows? ==> var events := Kept(previous, data);
              |b.rows| == |events| && forall i :: 0 <= i < |events| ==> b.rows[i] == Row(loc, events[i])
  {
    TableBody(isLoading, hasError, Kept(previous, data), (e: RecentEvent) => Row(loc, e))
  }
}
