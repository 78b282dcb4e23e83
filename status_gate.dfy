/**
 * How a poll's status gates what the pages offer, taken across the home
 * list, the tab bar, the editor page and the respondent's page: whatever
 * one page offers for a status, the page it leads to agrees.
 */
module StatusGate {
  import opened Wrappers
  import opened PollModel
  import HomePage
  import PollNavigation
  import EditPoll
  import TakePoll

  /** A poll with the given status and otherwise arbitrary fields. */
  function WithStatus(p: Poll, status: Option<Status>): Poll {
    p.(status := status)
  }

  /**
   * Edit is offered on the home list exactly when the editor page shows its
   * form and the tab bar shows an enabled Editor tab, on any path.
   */
  lemma EditOfferMatchesEditor(status: Option<Status>, path: string)
    ensures HomePage.PollActions(status).edit <==> EditPoll.EditPageFor(status).editorForm
    ensures HomePage.PollActions(status).edit ==>
      PollNavigation.Navigation(status, path).value.editor == PollNavigation.Shown(false)
    ensures status.Some? && PollNavigation.Navigation(status, path).value.editor == PollNavigation.Shown(false) ==>
      HomePage.PollActions(status).edit
  {
  }

  /**
   * Answer is offered only for polls whose page neither reports "not
   * started" nor "already finished": a respondent following it gets the form
   * or the thank-you page.
   */
  lemma AnswerOfferLeadsToForm(p: Poll, status: Option<Status>, isSuccess: bool, isAdmin: bool)
    requires HomePage.PollActions(status).answer
    ensures var v := TakePoll.TakePollPage(false, false, Some(WithStatus(p, status)), isSuccess, isAdmin);
      v.AnswerForm? || v == TakePoll.ThankYou
  {
  }

  /** Stats is offered on the home list exactly when the tab bar shows the Stats tab on every path. */
  lemma StatsOfferMatchesStatsTab(status: Option<Status>, path: string)
    ensures HomePage.PollActions(status).stats ==> PollNavigation.Navigation(status, path).value.stats.Shown?
    ensures status.Some? && !HomePage.PollActions(status).stats ==>
      (PollNavigation.Navigation(status, path).value.stats.Shown? <==>
       PollNavigation.CurrentTab(path) == Some(PollNavigation.StatsTab))
  {
  }

  /**
   * A finished poll is closed everywhere: no Edit or Answer on the home
   * list, no Start, Finish or form on the editor page, a disabled Editor tab
   * if any, and the respondent's page says it is finished.
   */
  lemma FinishedIsClosed(p: Poll, path: string, isSuccess: bool, isAdmin: bool)
    ensures !HomePage.PollActions(Some(Finished)).edit && !HomePage.PollActions(Some(Finished)).answer
    ensures EditPoll.EditPageFor(Some(Finished)) == EditPoll.EditPageView(false, false, false)
    ensures PollNavigation.Navigation(Some(Finished), path).value.editor != PollNavigation.Shown(false)
    ensures TakePoll.TakePollPage(false, false, Some(WithStatus(p, Some(Finished))), isSuccess, isAdmin) ==
      TakePoll.AlreadyFinished
  {
  }
}
