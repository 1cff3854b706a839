/**
 * The usage counters kept in stats.json: for each tool id, how often it ran in total
 * and on the day `lastDate` (an ISO date, YYYY-MM-DD).
 */
module UsageStats {

  datatype Entry = Entry(total: nat, today: nat, lastDate: string)

  /** The tool ids the routes record. */
  const PdfTool := "pdf"
  const Mp4ToMp3Tool := "mp4_to_mp3"
  const ImageTool := "image"
  const VideoTool := "video"
  const AudioTool := "audio"
  const MergePdfTool := "merge_pdf"

  /**
   * The counters after one use of `tool` on the day `today`: a missing entry is first
   * created empty, a day change restarts the day count, then both counts go up by one.
   */
  function Recorded(stats: map<string, Entry>, tool: string, today: string): (r: map<string, Entry>)
    ensures r.Keys == stats.Keys + {tool}
    ensures r[tool].total == (if tool in stats then stats[tool].total else 0) + 1
    ensures r[tool].lastDate == today
    ensures r[tool].today == if tool in stats && stats[tool].lastDate == today then stats[tool].today + 1 else 1
    ensures forall t :: t in stats && t != tool ==> r[t] == stats[t]
  {
    var created := if tool in stats then stats[tool] else Entry(0, 0, today);
    var current := if created.lastDate != today then created.(today := 0, lastDate := today) else created;
    stats[tool := current.(total := current.total + 1, today := current.today + 1)]
  }

  /** One call of `updateStats`: which tool, on which day. */
  datatype Use = Use(tool: string, date: string)

  /** The counters after the uses in `uses`, in order. */
  function RecordedAll(stats: map<string, Entry>, uses: seq<Use>): map<string, Entry>
    decreases |uses|
  {
    if uses == [] then stats
    else RecordedAll(Recorded(stats, uses[0].tool, uses[0].date), uses[1..])
  }

  /** The total shown for `tool`; a tool never used shows 0. */
  function TotalOf(stats: map<string, Entry>, tool: string): nat
  {
    if tool in stats then stats[tool].total else 0
  }

  /** How many of `uses` are uses of `tool`. */
  function UsesOf(uses: seq<Use>, tool: string): nat
  {
    if uses == [] then 0
    else (if uses[0].tool == tool then 1 else 0) + UsesOf(uses[1..], tool)
  }

  /** The total of every tool counts exactly the uses of that tool. */
  lemma {:induction false} TotalCountsEveryUse(stats: map<string, Entry>, uses: seq<Use>, tool: string)
    ensures TotalOf(RecordedAll(stats, uses), tool) == TotalOf(stats, tool) + UsesOf(uses, tool)
    decreases |uses|
  {
    if uses != [] {
      TotalCountsEveryUse(Recorded(stats, uses[0].tool, uses[0].date), uses[1..], tool);
    }
  }

  /** Every use happens on the day `day`. */
  predicate AllOn(uses: seq<Use>, day: string)
  {
    forall k :: 0 <= k < |uses| ==> uses[k].date == day
  }

  /**
   * After a run of uses on one day, the day count of a used tool is the number of those
   * uses, plus what it already counted if its stored date already was that day.
   */
  lemma {:induction false} TodayCountsTheDaysUses(stats: map<string, Entry>, uses: seq<Use>, tool: string, day: string)
    requires AllOn(uses, day)
    requires UsesOf(uses, tool) > 0
    ensures tool in RecordedAll(stats, uses)
    ensures RecordedAll(stats, uses)[tool].lastDate == day
    ensures RecordedAll(stats, uses)[tool].today
      == (if tool in stats && stats[tool].lastDate == day then stats[tool].today else 0) + UsesOf(uses, tool)
    decreases |uses|
  {
    var next := Recorded(stats, uses[0].tool, uses[0].date);
    assert AllOn(uses[1..], day) by {
      forall k | 0 <= k < |uses[1..]|
        ensures uses[1..][k].date == day
      {
        assert uses[1..][k] == uses[k + 1];
      }
    }
    if UsesOf(uses[1..], tool) > 0 {
      TodayCountsTheDaysUses(next, uses[1..], tool, day);
    } else {
      assert uses[0].tool == tool;
      assert uses[1..] == [] || UsesOf(uses[1..], tool) == 0;
      UnusedToolUntouched(next, uses[1..], tool);
    }
  }

  /** Uses of other tools leave a tool's entry as it is. */
  lemma {:induction false} UnusedToolUntouched(stats: map<string, Entry>, uses: seq<Use>, tool: string)
    requires UsesOf(uses, tool) == 0
    ensures tool in RecordedAll(stats, uses) <==> tool in stats
    ensures tool in stats ==> RecordedAll(stats, uses)[tool] == stats[tool]
    decreases |uses|
  {
    if uses != [] {
      UnusedToolUntouched(Recorded(stats, uses[0].tool, uses[0].date), uses[1..], tool);
    }
  }
}
