/**
 * The list of the user's own polls: the empty-list message, each poll's
 * title and the actions each status offers.
 */
module HomePage {
  import opened Wrappers
  import opened PollModel
  import Decimal

  /** A row of the list: the summary the server returns for one poll. */
  datatype PollSummary = PollSummary(id: int, name: Option<string>, status: Option<Status>)

  /** `poll.name || 'Poll'`: an absent or empty name falls back to "Poll". */
  function DisplayName(name: Option<string>): (n: string)
    ensures n != ""
    ensures name.Some? && name.value != "" ==> n == name.value
    ensures name.None? || name.value == "" ==> n == "Poll"
  {
    OrIfFalsy(name, "Poll")
  }

  /** The title `name #id`. */
  function Title(p: PollSummary): (t: string)
    ensures var digits := Decimal.IntString(p.id);
      |t| == |DisplayName(p.name)| + 2 + |digits| &&
      t[..|DisplayName(p.name)|] == DisplayName(p.name) &&
      t[|DisplayName(p.name)|..|DisplayName(p.name)| + 2] == " #" &&
      Decimal.ParseNumber(t[|DisplayName(p.name)| + 2..]) == Some(p.id)
  {
    var t := DisplayName(p.name) + " #" + Decimal.IntString(p.id);
    Decimal.IntStringRoundTrip(p.id);
    assert t[|DisplayName(p.name)| + 2..] == Decimal.IntString(p.id);
    t
  }

  datatype Actions = Actions(edit: bool, answer: bool, stats: bool)

  /** Edit for a draft, Answer for an active poll, Stats for an active or finished one. */
  function PollActions(status: Option<Status>): (a: Actions)
    ensures a.edit <==> status == Some(Draft)
    ensures a.answer <==> status == Some(Active)
    ensures a.stats <==> status == Some(Active) || status == Some(Finished)
  {
    Actions(status == Some(Draft), status == Some(Active), status == Some(Active) || status == Some(Finished))
  }

  /**
   * A draft never offers Answer or Stats, a finished poll never Edit or
   * Answer, and no status offers both Edit and anything else.
   */
  lemma ActionsExclusive(status: Option<Status>)
    ensures status == Some(Draft) ==> !PollActions(status).answer && !PollActions(status).stats
    ensures status == Some(Finished) ==> !PollActions(status).edit && !PollActions(status).answer
    ensures PollActions(status).edit ==> !PollActions(status).answer && !PollActions(status).stats
    ensures PollActions(status).answer ==> PollActions(status).stats
  {
  }

  /** One rendered row: title and the offered actions. */
  datatype Row = Row(title: string, actions: Actions)

  /** The rows, one per poll in the order the server returned them. */
  function Rows(polls: seq<PollSummary>): (rows: seq<Row>)
    ensures |rows| == |polls|
    ensures forall i :: 0 <= i < |polls| ==>
      rows[i].title == Title(polls[i]) && rows[i].actions == PollActions(polls[i].status)
  {
    seq(|polls|, i requires 0 <= i < |polls| => Row(Title(polls[i]), PollActions(polls[i].status)))
  }

  datatype HomeView = EmptyMessage | PollList(rows: seq<Row>)

  /**
   * "You didn't create any poll yet" shows when the server returned a list and
   * it is empty; otherwise the list renders one row per poll, and nothing
   * while no list is loaded. So the message and a non-empty list never show
   * together, and every loaded poll gets its row.
   */
  function HomeViewFor(polls: Option<seq<PollSummary>>): (v: HomeView)
    ensures v.EmptyMessage? <==> polls.Some? && |polls.value| == 0
    ensures v.PollList? ==> v.rows == Rows(polls.GetOr([]))
    ensures v.PollList? ==> |v.rows| == |polls.GetOr([])|
    ensures v.PollList? && polls.None? ==> v.rows == []
    ensures v.PollList? && polls.Some? ==> |v.rows| > 0
  {
    if polls.Some? && |polls.value| == 0 then EmptyMessage
    else PollList(Rows(polls.GetOr([])))
  }
}
