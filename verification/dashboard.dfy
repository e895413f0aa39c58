/**
 * What the dashboard (components/Dashboard.tsx) derives from the profile and
 * the history: the recent list, the score chart, the counters and the badge
 * shelf. The history arrives newest first, as /api/history stores it.
 */
module DashboardView {
  import opened Types
  import opened Strings
  import opened KvStore
  import opened ScoreBands
  import Constants
  import StorageService

  const RecentCount: nat := 5
  const ChartWindow: nat := 10

  function Min(a: nat, b: nat): nat {
    if a <= b then a else b
  }

  /** `history.slice(0, 5)`: the newest five records, in their order. */
  function Recent(history: seq<HistoryRecord>): (r: seq<HistoryRecord>)
    ensures |r| == Min(RecentCount, |history|)
    ensures forall i :: 0 <= i < |r| ==> r[i] == history[i]
  {
    if |history| <= RecentCount then history else history[..RecentCount]
  }

  function Reverse<T>(s: seq<T>): (r: seq<T>)
    ensures |r| == |s|
    ensures forall i :: 0 <= i < |s| ==> r[i] == s[|s| - 1 - i]
  {
    if s == [] then [] else Reverse(s[1..]) + [s[0]]
  }

  datatype ChartEntry = ChartEntry(name: string, score: int)

  /** The bar label `Ex ${i + 1}` for position `i`. */
  function Label(i: nat): (r: string)
    ensures StartsWith(r, "Ex ") && r[3..] == NatToString(i + 1)
  {
    "Ex " + NatToString(i + 1)
  }

  /**
   * `history.slice(0, 10).reverse().map((h, i) => ...)`: the newest ten
   * records, oldest of them first, labelled Ex 1 .. Ex k. Slicing first
   * means the history itself is never reordered.
   */
  function ChartData(history: seq<HistoryRecord>): (r: seq<ChartEntry>)
    ensures |r| == Min(ChartWindow, |history|)
    ensures forall i :: 0 <= i < |r| ==>
              r[i].name == Label(i) && r[i].score == history[|r| - 1 - i].evaluation.score
  {
    var window := Reverse(if |history| <= ChartWindow then history else history[..ChartWindow]);
    seq(|window|, i requires 0 <= i < |window| => ChartEntry(Label(i), window[i].evaluation.score))
  }

  /** No two bars share a label. */
  lemma LabelsDistinct(i: nat, j: nat)
    requires i != j
    ensures Label(i) != Label(j)
  {
  }

  /** The bar colour, as the chart writes it. */
  function ChartFill(score: int): (c: string)
    ensures c == Hex(BandOf(score))
  {
    if score >= 80 then "#10b981" else if score >= 60 then "#f59e0b" else "#ef4444"
  }

  /** The colour classes of a recent-list score bubble, as the list writes them. */
  function ListClasses(score: int): (c: string)
    ensures c == BandClasses(BandOf(score))
  {
    if score >= 80 then "bg-emerald-50 border-emerald-100 text-emerald-600"
    else if score >= 60 then "bg-amber-50 border-amber-100 text-amber-600"
    else "bg-red-50 border-red-100 text-red-600"
  }

  function BandClasses(b: Band): string {
    match b
    case Good => "bg-emerald-50 border-emerald-100 text-emerald-600"
    case Fair => "bg-amber-50 border-amber-100 text-amber-600"
    case Poor => "bg-red-50 border-red-100 text-red-600"
  }

  /** The chart and the list draw the band boundaries at the same scores. */
  lemma ChartAndListAgree(x: int, y: int)
    ensures ChartFill(x) == ChartFill(y) <==> ListClasses(x) == ListClasses(y)
  {
    if ChartFill(x) == ChartFill(y) {
      HexInjective(BandOf(x), BandOf(y));
    }
    if ListClasses(x) == ListClasses(y) {
      assert BandClasses(BandOf(x))[3] == BandClasses(BandOf(y))[3];
    }
  }

  /** The header counters and the badge shelf. */
  datatype Stats = Stats(totalPoints: int, exercises: nat, unlocked: seq<bool>)

  /** `BADGES.map(badge => profile.badges.includes(badge.id))` with the points and history counters. */
  function StatsOf(points: int, held: seq<string>, history: seq<HistoryRecord>): (r: Stats)
    ensures r.totalPoints == points && r.exercises == |history|
    ensures |r.unlocked| == |Constants.Badges|
    ensures forall i :: 0 <= i < |r.unlocked| ==> (r.unlocked[i] <==> Constants.Badges[i].id in held)
  {
    Stats(points, |history|,
      seq(|Constants.Badges|, i requires 0 <= i < |Constants.Badges| => Constants.Badges[i].id in held))
  }

  /**
   * After an award, every badge whose threshold the new total reaches is lit,
   * and no badge that was lit goes dark.
   */
  lemma AwardLightsEarned(profile: Value, add: int, history: seq<HistoryRecord>)
    requires StorageService.Awardable(profile)
    ensures var total := profile.points.value + add;
            var before := StatsOf(profile.points.value, profile.badges.value, history);
            var after := StatsOf(total, StorageService.AwardRequest(profile, add).request.badges.value, history);
            && (forall i :: 0 <= i < |after.unlocked| && Constants.Badges[i].threshold <= total ==> after.unlocked[i])
            && (forall i :: 0 <= i < |before.unlocked| && before.unlocked[i] ==> after.unlocked[i])
  {
    var total := profile.points.value + add;
    var saved := StorageService.AwardRequest(profile, add).request.badges.value;
    StorageService.AwardCoversEarned(profile, add);
    forall i | 0 <= i < |Constants.Badges| && Constants.Badges[i].threshold <= total
      ensures Constants.Badges[i].id in saved
    {
      assert Constants.Badges[i] in Constants.Badges;
    }
  }

  /**
   * A record just prepended to the history counts once more, heads the
   * recent list and is the chart's last bar.
   */
  lemma NewestRecordShows(record: HistoryRecord, history: seq<HistoryRecord>, points: int, held: seq<string>)
    ensures StatsOf(points, held, [record] + history).exercises == |history| + 1
    ensures Recent([record] + history)[0] == record
    ensures var chart := ChartData([record] + history);
            chart[|chart| - 1] == ChartEntry(Label(|chart| - 1), record.evaluation.score)
  {
  }
}
