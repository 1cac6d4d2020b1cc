/** The application shell: which page is current, which job is selected, the
    navigation handlers, and `renderPage`, which redirects away from a page
    whose prerequisites are missing by changing the current page and drawing
    nothing for that render. */
module AppLayout {
  import opened Wrappers
  import opened Types
  import opened JobStore

  datatype Page = Landing | Upload | DashboardPage | JobDetailPage

  /** The spelling of each page in the `Page` union. */
  function PageName(p: Page): string {
    match p
    case Landing => "landing"
    case Upload => "upload"
    case DashboardPage => "dashboard"
    case JobDetailPage => "job-detail"
  }

  /** What one call of `renderPage` draws. */
  datatype View =
    | LandingView
    | UploadView(existingResume: Option<Resume>)
    | DashboardView(resume: Resume)
    | JobDetailView(jobId: string, resume: Resume)
    | NoView

  /** One render: the page it leaves current and what it draws. A dashboard
      without a resume sends the user to the upload page; a detail page
      without a resume or without a (non-empty) selected id sends them to the
      dashboard. */
  function Render(page: Page, resume: Option<Resume>, selectedJobId: Option<string>): (r: (Page, View))
    ensures r.1.NoView? <==> r.0 != page
    ensures r.1.DashboardView? ==> resume == Some(r.1.resume)
    ensures r.1.JobDetailView? ==> resume == Some(r.1.resume) && selectedJobId == Some(r.1.jobId) && r.1.jobId != ""
    ensures page == Landing || page == Upload ==> r.0 == page && !r.1.NoView?
    ensures page == DashboardPage ==> (r.0 == Upload <==> resume.None?) && (r.1.DashboardView? <==> resume.Some?)
    ensures page == JobDetailPage ==>
      (r.0 == DashboardPage <==> resume.None? || !IsTruthyText(selectedJobId))
      && (r.1.JobDetailView? <==> resume.Some? && IsTruthyText(selectedJobId))
  {
    match page
    case Landing => (Landing, LandingView)
    case Upload => (Upload, UploadView(resume))
    case DashboardPage =>
      if resume.None? then (Upload, NoView) else (DashboardPage, DashboardView(resume.value))
    case JobDetailPage =>
      if resume.None? || !IsTruthyText(selectedJobId) then (DashboardPage, NoView)
      else (JobDetailPage, JobDetailView(selectedJobId.value, resume.value))
  }

  /** How many redirects a page can still cause. */
  function RedirectRank(p: Page): nat {
    match p
    case JobDetailPage => 2
    case DashboardPage => 1
    case _ => 0
  }

  /** The view the shell settles on after the re-renders that redirects cause. */
  function Settled(page: Page, resume: Option<Resume>, selectedJobId: Option<string>): (v: View)
    decreases RedirectRank(page)
  {
    var (next, view) := Render(page, resume, selectedJobId);
    if view.NoView? then
      assert RedirectRank(next) < RedirectRank(page);
      Settled(next, resume, selectedJobId)
    else view
  }

  /** Every redirect moves to a page with fewer redirects left, so rendering
      settles after at most two redirects on a view that is drawn; the
      dashboard and detail views are drawn only with their prerequisites, and
      without a resume the user always ends on the landing or upload page. */
  lemma {:induction false} RedirectsSettle(page: Page, resume: Option<Resume>, selectedJobId: Option<string>)
    ensures !Settled(page, resume, selectedJobId).NoView?
    ensures Settled(page, resume, selectedJobId).DashboardView? ==> resume.Some?
    ensures Settled(page, resume, selectedJobId).JobDetailView? ==> resume.Some? && IsTruthyText(selectedJobId)
    ensures resume.None? ==> Settled(page, resume, selectedJobId) in {LandingView, UploadView(None)}
    decreases RedirectRank(page)
  {
    var (next, view) := Render(page, resume, selectedJobId);
    if view.NoView? {
      RedirectsSettle(next, resume, selectedJobId);
    }
  }

  class Layout {
    const store: Store
    var currentPage: Page
    var selectedJobId: Option<string>

    constructor (store: Store)
      ensures this.store == store && currentPage == Landing && selectedJobId == None
    {
      this.store := store;
      currentPage := Landing;
      selectedJobId := None;
    }

    /** `handleNavigate`: go to the landing, upload or dashboard page and drop the selection. */
    method Navigate(page: Page)
      requires page != JobDetailPage
      modifies this`currentPage, this`selectedJobId
      ensures currentPage == page && selectedJobId == None
    {
      currentPage := page;
      selectedJobId := None;
    }

    /** `handleJobClick`: select the job and open its detail page. */
    method JobClick(jobId: string)
      modifies this`currentPage, this`selectedJobId
      ensures currentPage == JobDetailPage && selectedJobId == Some(jobId)
    {
      selectedJobId := Some(jobId);
      currentPage := JobDetailPage;
    }

    /** `handleResumeReady`: a resume is stored; a missing one changes nothing. */
    method ResumeReady(newResume: Option<Resume>)
      modifies store`resume, store`storage
      ensures newResume.Some? ==>
        store.resume == newResume && store.storage == old(store.storage)[RESUME_KEY := ResumeJson(newResume.value)]
      ensures newResume.None? ==> store.resume == old(store.resume) && store.storage == old(store.storage)
    {
      if newResume.Some? {
        store.SetResume(newResume);
      }
    }

    /** `handleContinueToDashboard`: open the dashboard, keeping the selection. */
    method ContinueToDashboard()
      modifies this`currentPage
      ensures currentPage == DashboardPage
    {
      currentPage := DashboardPage;
    }

    /** `renderPage`: draw the current page, or redirect and draw nothing. */
    method RenderPage() returns (view: View)
      modifies this`currentPage
      ensures (currentPage, view) == Render(old(currentPage), store.resume, selectedJobId)
    {
      match currentPage {
        case Landing =>
          view := LandingView;
        case Upload =>
          view := UploadView(store.resume);
        case DashboardPage =>
          if store.resume.None? {
            currentPage := Upload;
            view := NoView;
          } else {
            view := DashboardView(store.resume.value);
          }
        case JobDetailPage =>
          if store.resume.None? || !IsTruthyText(selectedJobId) {
            currentPage := DashboardPage;
            view := NoView;
          } else {
            view := JobDetailView(selectedJobId.value, store.resume.value);
          }
      }
    }
  }

  /** Clicking a job card with a resume loaded shows that job's detail page. */
  lemma JobClickShowsDetail(resume: Resume, jobId: string)
    requires jobId != ""
    ensures Settled(JobDetailPage, Some(resume), Some(jobId)) == JobDetailView(jobId, resume)
  {
  }

  /** Navigating drops the selection, so a detail page reached later without
      a new click redirects to the dashboard. */
  lemma NavigationForgetsSelection(resume: Option<Resume>)
    ensures Render(JobDetailPage, resume, None) == (DashboardPage, NoView)
  {
  }
}
