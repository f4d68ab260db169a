/** The chat-history log: one dictionary per completed chat turn, and the
    list-level operations over it (turning datetime timestamps into text,
    summing the response lengths, choosing the columns to display). The log
    is heterogeneous: entries written by earlier versions of the application
    may lack keys or hold a raw datetime under 'timestamp'. */
module History {
  import opened Base

  /** A value stored in a history entry. */
  datatype Value =
    | Text(s: string)
    | Count(n: int)
    | Moment(t: Instant)   // a datetime object, not yet formatted
    | Seconds(r: real)     // an elapsed time; its computation is not modelled

  /** One history entry: a dictionary from column name to value. */
  type Entry = map<string, Value>

  const TimestampKey: string := "timestamp"
  const LengthKey: string := "response_length"

  /** The columns of the analytics table, in display order. */
  const DisplayOrder: seq<string> := ["timestamp", "model", "user", "assistant", "response_length", "response_time"]

  /** The entry a successful chat turn records: formatted time, model, prompt,
      reply, reply length and response time. */
  function TurnEntry(stamp: string, model: string, prompt: string, reply: string, responseTime: Value): (e: Entry)
    ensures e.Keys == set k | k in DisplayOrder
    ensures e[LengthKey] == Count(|reply|) && e["assistant"] == Text(reply) && e["user"] == Text(prompt)
    ensures e[TimestampKey] == Text(stamp) && e["model"] == Text(model) && e["response_time"] == responseTime
  {
    map["timestamp" := Text(stamp), "model" := Text(model), "user" := Text(prompt),
        "assistant" := Text(reply), "response_length" := Count(|reply|), "response_time" := responseTime]
  }

  /** An entry whose recorded length is the length of its recorded reply. */
  predicate Consistent(e: Entry) {
    LengthKey in e && "assistant" in e && e["assistant"].Text? ==> e[LengthKey] == Count(|e["assistant"].s|)
  }

  // ---------------------------------------------------------------------
  // cleanup_chat_history

  /** One entry after cleanup: a datetime under 'timestamp' becomes its
      "%Y-%m-%d %H:%M:%S" text; every other entry is kept as it is. */
  function CleanEntry(e: Entry): (r: Entry)
    ensures r.Keys == e.Keys
    ensures forall k :: k in e && k != TimestampKey ==> r[k] == e[k]
    ensures TimestampKey in e && e[TimestampKey].Moment? ==> r[TimestampKey] == Text(Stamp(e[TimestampKey].t))
    ensures TimestampKey in e && !e[TimestampKey].Moment? ==> r[TimestampKey] == e[TimestampKey]
  {
    if TimestampKey in e && e[TimestampKey].Moment? then e[TimestampKey := Text(Stamp(e[TimestampKey].t))] else e
  }

  /** The log after cleanup: entry by entry, in the same order. */
  function Cleaned(items: seq<Entry>): (r: seq<Entry>)
    ensures |r| == |items|
    ensures forall i :: 0 <= i < |items| ==> r[i] == CleanEntry(items[i])
  {
    if items == [] then [] else [CleanEntry(items[0])] + Cleaned(items[1..])
  }

  /** No entry holds a datetime under 'timestamp'. */
  predicate IsClean(items: seq<Entry>) {
    forall i :: 0 <= i < |items| ==> !(TimestampKey in items[i] && items[i][TimestampKey].Moment?)
  }

  /** The loop of cleanup_chat_history: a new list built entry by entry. */
  method CleanHistory(items: seq<Entry>) returns (cleaned: seq<Entry>)
    ensures cleaned == Cleaned(items)
  {
    cleaned := [];
    var i := 0;
    while i < |items|
      invariant 0 <= i <= |items|
      invariant cleaned == Cleaned(items[..i])
    {
      var item := items[i];
      var next := item;
      if TimestampKey in item && item[TimestampKey].Moment? {
        next := item[TimestampKey := Text(Stamp(item[TimestampKey].t))];
      }
      assert next == CleanEntry(item);
      CleanedSnoc(items[..i], item);
      assert items[..i + 1] == items[..i] + [item];
      cleaned := cleaned + [next];
      i := i + 1;
    }
    assert items[..i] == items;
  }

  lemma CleanedSnoc(items: seq<Entry>, e: Entry)
    ensures Cleaned(items + [e]) == Cleaned(items) + [CleanEntry(e)]
  {
  }

  /** After cleanup no datetime is left, and cleaning a clean log changes nothing. */
  lemma {:induction false} CleanedIsClean(items: seq<Entry>)
    ensures IsClean(Cleaned(items))
    ensures IsClean(items) ==> Cleaned(items) == items
  {
    if IsClean(items) {
      assert forall i :: 0 <= i < |items| ==> Cleaned(items)[i] == items[i];
    }
  }

  /** Running the cleanup twice gives what running it once gives. */
  lemma CleanedIdempotent(items: seq<Entry>)
    ensures Cleaned(Cleaned(items)) == Cleaned(items)
  {
    CleanedIsClean(items);
    CleanedIsClean(Cleaned(items));
  }

  /** Cleanup keeps every entry's reply and recorded length, so it keeps consistency. */
  lemma CleanedKeepsConsistency(items: seq<Entry>)
    requires forall i :: 0 <= i < |items| ==> Consistent(items[i])
    ensures forall i :: 0 <= i < |items| ==> Consistent(Cleaned(items)[i])
  {
  }

  // ---------------------------------------------------------------------
  // The "Total Chars" and "Avg Response Length" metrics

  /** msg.get('response_length', 0) for one entry. Python's sum would raise
      on anything but a number there; entries always hold a number. */
  predicate HasNumericLength(e: Entry) {
    LengthKey in e ==> e[LengthKey].Count?
  }

  function LengthOf(e: Entry): int
    requires HasNumericLength(e)
  {
    if LengthKey in e then e[LengthKey].n else 0
  }

  /** sum([msg.get('response_length', 0) for msg in history]), front to back. */
  function TotalResponseLength(items: seq<Entry>): (r: int)
    requires forall i :: 0 <= i < |items| ==> HasNumericLength(items[i])
    ensures (forall i :: 0 <= i < |items| ==> LengthOf(items[i]) >= 0) ==> r >= 0
    ensures (forall i :: 0 <= i < |items| ==> LengthKey !in items[i]) ==> r == 0
  {
    if items == [] then 0 else LengthOf(items[0]) + TotalResponseLength(items[1..])
  }

  /** Appending an entry adds its length, or nothing when it records none. */
  lemma {:induction false} TotalAppend(items: seq<Entry>, e: Entry)
    requires forall i :: 0 <= i < |items| ==> HasNumericLength(items[i])
    requires HasNumericLength(e)
    ensures TotalResponseLength(items + [e]) == TotalResponseLength(items) + LengthOf(e)
    ensures LengthKey !in e ==> TotalResponseLength(items + [e]) == TotalResponseLength(items)
  {
    if items != [] {
      assert (items + [e])[1..] == items[1..] + [e];
      TotalAppend(items[1..], e);
    }
  }

  /** A log made only of recorded turns totals the lengths of their replies. */
  lemma {:induction false} TotalOfTurns(stamps: seq<string>, models: seq<string>, prompts: seq<string>,
                                        replies: seq<string>, times: seq<Value>, items: seq<Entry>)
    requires |stamps| == |models| == |prompts| == |replies| == |times| == |items|
    requires forall i :: 0 <= i < |items| ==> items[i] == TurnEntry(stamps[i], models[i], prompts[i], replies[i], times[i])
    ensures forall i :: 0 <= i < |items| ==> HasNumericLength(items[i])
    ensures TotalResponseLength(items) == SumOfLengths(replies)
  {
    if items != [] {
      TotalOfTurns(stamps[1..], models[1..], prompts[1..], replies[1..], times[1..], items[1..]);
    }
  }

  function SumOfLengths(texts: seq<string>): nat {
    if texts == [] then 0 else |texts[0]| + SumOfLengths(texts[1..])
  }

  /** Cleanup does not change the total: it touches only 'timestamp'. */
  lemma {:induction false} CleanedKeepsTotal(items: seq<Entry>)
    requires forall i :: 0 <= i < |items| ==> HasNumericLength(items[i])
    ensures forall i :: 0 <= i < |items| ==> HasNumericLength(Cleaned(items)[i])
    ensures TotalResponseLength(Cleaned(items)) == TotalResponseLength(items)
  {
    if items != [] {
      assert Cleaned(items)[1..] == Cleaned(items[1..]);
      CleanedKeepsTotal(items[1..]);
    }
  }

  // ---------------------------------------------------------------------
  // Column selection of the analytics table

  /** The columns of the table pandas builds from the log: every key that
      occurs in some entry. */
  function Columns(items: seq<Entry>): (r: set<string>)
    ensures forall k :: k in r <==> exists i :: 0 <= i < |items| && k in items[i]
  {
    if items == [] then {}
    else
      var rest := Columns(items[1..]);
      assert forall k :: (exists i :: 1 <= i < |items| && k in items[i]) <==> k in rest by {
        forall k | k in rest ensures exists i :: 1 <= i < |items| && k in items[i] {
          var j :| 0 <= j < |items| - 1 && k in items[1..][j];
          assert k in items[j + 1];
        }
        forall k | (exists i :: 1 <= i < |items| && k in items[i]) ensures k in rest {
          var j :| 1 <= j < |items| && k in items[j];
          assert k in items[1..][j - 1];
        }
      }
      items[0].Keys + rest
  }

  /** `sub` is `s` with some elements left out, the rest in their order. */
  predicate IsSubsequence(sub: seq<string>, s: seq<string>)
    decreases |s|
  {
    if sub == [] then true
    else if s == [] then false
    else if sub[0] == s[0] then IsSubsequence(sub[1..], s[1..])
    else IsSubsequence(sub, s[1..])
  }

  /** The names of `order` that are in `available`, in the order of `order`. */
  function Present(order: seq<string>, available: set<string>): (r: seq<string>)
    ensures forall k :: k in r <==> k in order && k in available
    ensures IsSubsequence(r, order)
  {
    if order == [] then []
    else if order[0] in available then [order[0]] + Present(order[1..], available)
    else Present(order[1..], available)
  }

  /** The loop that picks the display columns: the six known columns, in
      their fixed order, that occur in the log. */
  method SelectDisplayColumns(items: seq<Entry>) returns (cols: seq<string>)
    ensures cols == Present(DisplayOrder, Columns(items))
  {
    var available := Columns(items);
    cols := KeepAvailable(DisplayOrder, available);
  }

  /** `for col in order: if col in available: cols.append(col)` */
  method KeepAvailable(order: seq<string>, available: set<string>) returns (cols: seq<string>)
    ensures cols == Present(order, available)
  {
    cols := [];
    var i := 0;
    while i < |order|
      invariant 0 <= i <= |order|
      invariant cols + Present(order[i..], available) == Present(order, available)
    {
      PresentStep(order[i..], available);
      assert order[i..][1..] == order[i + 1..];
      if order[i] in available {
        cols := cols + [order[i]];
      }
      i := i + 1;
    }
  }

  lemma PresentStep(order: seq<string>, available: set<string>)
    requires order != []
    ensures Present(order, available) == (if order[0] in available then [order[0]] else []) + Present(order[1..], available)
  {
  }

  /** Once one turn has been recorded, all six columns are displayed. */
  lemma AllColumnsAfterATurn(items: seq<Entry>, i: nat, stamp: string, model: string,
                             prompt: string, reply: string, responseTime: Value)
    requires i < |items| && items[i] == TurnEntry(stamp, model, prompt, reply, responseTime)
    ensures Present(DisplayOrder, Columns(items)) == DisplayOrder
  {
    var available := Columns(items);
    assert forall k :: k in DisplayOrder ==> k in items[i];
    AllPresent(DisplayOrder, available);
  }

  lemma {:induction false} AllPresent(order: seq<string>, available: set<string>)
    requires forall k :: k in order ==> k in available
    ensures Present(order, available) == order
  {
    if order != [] {
      AllPresent(order[1..], available);
    }
  }
}
