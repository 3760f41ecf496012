/**
 * The web app's route table: which page a location renders, or where it
 * redirects, given whether the session is authenticated.
 */
module Routes {
  import opened Wrappers
  import opened Text

  /** The pages the table can render. */
  datatype Page = LoginView | RegisterView | HomeView | ResumeListView | EditorView | TemplatesView | ProfileView | SettingsView

  /** The two redirect targets, '/' and '/login'. */
  datatype Target = Root | LoginTarget

  /** A route's element: its page, or a `<Navigate replace>` to a target. */
  datatype Element = Render(page: Page) | Redirect(to: Target)

  /** The fixed words of the table's paths. */
  datatype Name = LoginName | RegisterName | ResumesName | NewName | TemplatesName | ProfileName | SettingsName

  function NameText(n: Name): string {
    match n
    case LoginName => "login"
    case RegisterName => "register"
    case ResumesName => "resumes"
    case NewName => "new"
    case TemplatesName => "templates"
    case ProfileName => "profile"
    case SettingsName => "settings"
  }

  function NameOf(s: string): (r: Option<Name>)
    ensures r.Some? ==> NameText(r.value) == s
  {
    if s == "login" then Some(LoginName)
    else if s == "register" then Some(RegisterName)
    else if s == "resumes" then Some(ResumesName)
    else if s == "new" then Some(NewName)
    else if s == "templates" then Some(TemplatesName)
    else if s == "profile" then Some(ProfileName)
    else if s == "settings" then Some(SettingsName)
    else None
  }

  lemma NameSpellingsDistinct(m: Name, n: Name)
    requires NameText(m) == NameText(n)
    ensures m == n
  {
    assert |NameText(m)| == |NameText(n)| && NameText(m)[0] == NameText(n)[0];
  }

  lemma NameRoundTrip(n: Name)
    ensures NameOf(NameText(n)) == Some(n)
  {
    var r := NameOf(NameText(n));
    assert r.Some?;
    NameSpellingsDistinct(r.value, n);
  }

  /** The entries of the table, in its order; `ResumeById` is `/resumes/:id`. */
  datatype Pattern =
    | LoginRoute | RegisterRoute | HomeRoute | ResumesRoute | NewResumeRoute
    | ResumeById(id: string) | TemplatesRoute | ProfileRoute | SettingsRoute | Unmatched

  /** The segments a pattern stands for. */
  function PatternSegments(p: Pattern): seq<string>
    requires !p.Unmatched?
  {
    match p
    case LoginRoute => [NameText(LoginName)]
    case RegisterRoute => [NameText(RegisterName)]
    case HomeRoute => []
    case ResumesRoute => [NameText(ResumesName)]
    case NewResumeRoute => [NameText(ResumesName), NameText(NewName)]
    case ResumeById(id) => [NameText(ResumesName), id]
    case TemplatesRoute => [NameText(TemplatesName)]
    case ProfileRoute => [NameText(ProfileName)]
    case SettingsRoute => [NameText(SettingsName)]
  }

  /** The route a location's segments select; the static `/resumes/new` outranks `/resumes/:id`. */
  function Match(segments: seq<string>): (p: Pattern)
    ensures |segments| > 2 ==> p.Unmatched?
    ensures p.ResumeById? ==> |segments| == 2 && p.id == segments[1] && p.id != "" && p.id != NameText(NewName)
  {
    NameRoundTrip(NewName);
    if |segments| == 0 then HomeRoute
    else
      var first := NameOf(segments[0]);
      if |segments| == 1 then
        match first
        case Some(LoginName) => LoginRoute
        case Some(RegisterName) => RegisterRoute
        case Some(ResumesName) => ResumesRoute
        case Some(TemplatesName) => TemplatesRoute
        case Some(ProfileName) => ProfileRoute
        case Some(SettingsName) => SettingsRoute
        case _ => Unmatched
      else if |segments| == 2 && first == Some(ResumesName) then
        if NameOf(segments[1]) == Some(NewName) then NewResumeRoute
        else if segments[1] != "" then ResumeById(segments[1])
        else Unmatched
      else Unmatched
  }

  /** A pattern the table can select: an `:id` is one non-empty segment other than 'new'. */
  predicate WellFormed(p: Pattern) {
    !p.Unmatched? && (p.ResumeById? ==> p.id != "" && '/' !in p.id && p.id != NameText(NewName))
  }

  /** Selecting is the inverse of spelling out: each entry matches its own segments, and whatever matches is one. */
  lemma MatchInvertsSegments(p: Pattern, segments: seq<string>)
    ensures WellFormed(p) ==> Match(PatternSegments(p)) == p
    ensures !Match(segments).Unmatched? && NoSlash(segments) ==> WellFormed(Match(segments))
    ensures !Match(segments).Unmatched? ==> PatternSegments(Match(segments)) == segments
  {
    if WellFormed(p) {
      match p
      case LoginRoute => NameRoundTrip(LoginName);
      case RegisterRoute => NameRoundTrip(RegisterName);
      case HomeRoute =>
      case ResumesRoute => NameRoundTrip(ResumesName);
      case NewResumeRoute => NameRoundTrip(ResumesName); NameRoundTrip(NewName);
      case ResumeById(id) =>
        NameRoundTrip(ResumesName);
      case TemplatesRoute => NameRoundTrip(TemplatesName);
      case ProfileRoute => NameRoundTrip(ProfileName);
      case SettingsRoute => NameRoundTrip(SettingsName);
    }
  }

  /** The pages that require a session. */
  predicate IsProtected(p: Pattern) {
    !(p.LoginRoute? || p.RegisterRoute? || p.Unmatched?)
  }

  function ProtectedPage(p: Pattern): Page
    requires IsProtected(p)
  {
    match p
    case HomeRoute => HomeView
    case ResumesRoute => ResumeListView
    case NewResumeRoute => EditorView
    case ResumeById(_) => EditorView
    case TemplatesRoute => TemplatesView
    case ProfileRoute => ProfileView
    case SettingsRoute => SettingsView
  }

  /** The table's element for a selected route. */
  function RouteElement(p: Pattern, isAuthenticated: bool): (e: Element)
    ensures e.Render? ==> !p.Unmatched? && (IsProtected(p) <==> isAuthenticated)
    ensures e.Redirect? && isAuthenticated ==> e.to == Root
  {
    match p
    case LoginRoute => if !isAuthenticated then Render(LoginView) else Redirect(Root)
    case RegisterRoute => if !isAuthenticated then Render(RegisterView) else Redirect(Root)
    case Unmatched => Redirect(Root)
    case _ => if isAuthenticated then Render(ProtectedPage(p)) else Redirect(LoginTarget)
  }

  /** The public pages render exactly without a session and otherwise send to '/'. */
  lemma PublicRoutes(p: Pattern, isAuthenticated: bool)
    requires p.LoginRoute? || p.RegisterRoute?
    ensures RouteElement(p, isAuthenticated).Render? <==> !isAuthenticated
    ensures isAuthenticated ==> RouteElement(p, isAuthenticated) == Redirect(Root)
    ensures !isAuthenticated ==> RouteElement(p, isAuthenticated).page == (if p.LoginRoute? then LoginView else RegisterView)
  {
  }

  /** Every protected page renders exactly with a session and otherwise sends to '/login'. */
  lemma ProtectedRoutes(p: Pattern, isAuthenticated: bool)
    requires IsProtected(p)
    ensures RouteElement(p, isAuthenticated).Render? <==> isAuthenticated
    ensures !isAuthenticated ==> RouteElement(p, isAuthenticated) == Redirect(LoginTarget)
  {
  }

  /** `/resumes/new` and every `/resumes/:id` reach the editor. */
  lemma BothEditorRoutes(id: string)
    requires id != "" && '/' !in id
    ensures RouteElement(Match([NameText(ResumesName), id]), true) == Render(EditorView)
  {
    NameRoundTrip(ResumesName);
    if NameOf(id) == Some(NewName) {
      assert Match([NameText(ResumesName), id]) == NewResumeRoute;
    } else {
      assert Match([NameText(ResumesName), id]) == ResumeById(id);
    }
  }

  // ---------------------------------------------------------------------------
  // Locations

  predicate AllNonEmpty(segments: seq<string>) {
    forall i | 0 <= i < |segments| :: segments[i] != ""
  }

  /** The pieces before a run of empty pieces at the end. */
  function DropTrailingEmpty(pieces: seq<string>): (r: seq<string>)
    ensures r <= pieces
    ensures |r| > 0 ==> r[|r| - 1] != ""
    ensures forall i | |r| <= i < |pieces| :: pieces[i] == ""
    decreases |pieces|
  {
    if |pieces| > 0 && pieces[|pieces| - 1] == "" then DropTrailingEmpty(pieces[..|pieces| - 1]) else pieces
  }

  /**
   * The segments a location's pathname is read as. Each pattern is compared
   * as '/seg/seg' followed by any number of slashes, so empty pieces at the
   * end are ignored ('/resumes/' is '/resumes'); an empty piece anywhere else
   * ('//resumes', '/resumes//5'), or a pathname not starting with '/', fits
   * no pattern.
   */
  function Segments(path: string): (r: Option<seq<string>>)
    ensures r.Some? ==> AllNonEmpty(r.value)
  {
    var pieces := Split(path, '/');
    if pieces[0] != "" then None
    else
      var rest := DropTrailingEmpty(pieces[1..]);
      if AllNonEmpty(rest) then Some(rest) else None
  }

  /** The table entry a location selects; one that fits no pattern falls to the catch-all. */
  function Selected(path: string): (p: Pattern)
    ensures Segments(path).None? ==> p.Unmatched?
  {
    match Segments(path)
    case None => Unmatched
    case Some(segments) => Match(segments)
  }

  /** The element the table gives a location. */
  function Navigate(path: string, isAuthenticated: bool): (e: Element)
    ensures Selected(path).Unmatched? ==> e == Redirect(Root)
  {
    RouteElement(Selected(path), isAuthenticated)
  }

  function TargetPath(t: Target): string {
    match t
    case Root => "/"
    case LoginTarget => Path([NameText(LoginName)])
  }

  /** A path built from non-empty segments reads back as those segments. */
  lemma SegmentsOfPath(segments: seq<string>)
    requires NoSlash(segments) && AllNonEmpty(segments)
    ensures Segments(Path(segments)) == Some(segments)
  {
    SplitPath(segments);
    assert ([""] + segments)[1..] == segments;
  }

  lemma {:induction false} PathThenSlash(segments: seq<string>)
    ensures Path(segments + [""]) == Path(segments) + "/"
  {
    if |segments| > 0 {
      assert (segments + [""])[1..] == segments[1..] + [""];
      PathThenSlash(segments[1..]);
    } else {
      assert Path([""]) == "/" + "" + Path([]);
    }
  }

  lemma DropPadding(segments: seq<string>)
    requires AllNonEmpty(segments)
    ensures DropTrailingEmpty(segments + [""]) == segments
  {
    var padded := segments + [""];
    assert padded[..|padded| - 1] == segments;
  }

  lemma PaddingHasNoSlash(segments: seq<string>)
    requires NoSlash(segments)
    ensures NoSlash(segments + [""])
  {
    var padded := segments + [""];
    assert forall i | 0 <= i < |segments| :: padded[i] == segments[i];
  }

  /** A trailing slash does not change what a location selects. */
  lemma TrailingSlashIgnored(segments: seq<string>)
    requires NoSlash(segments) && AllNonEmpty(segments)
    ensures Segments(Path(segments) + "/") == Some(segments)
  {
    var padded := segments + [""];
    PathThenSlash(segments);
    PaddingHasNoSlash(segments);
    SplitPath(padded);
    assert Split(Path(segments) + "/", '/')[1..] == padded;
    DropPadding(segments);
  }

  /** An empty segment before the last one ('//resumes', '/resumes//5') sends the location to the catch-all. */
  lemma EmptyPieceUnmatched(segments: seq<string>)
    requires NoSlash(segments) && |segments| > 0 && segments[|segments| - 1] != "" && !AllNonEmpty(segments)
    ensures Segments(Path(segments)).None?
    ensures Selected(Path(segments)) == Unmatched
  {
    SplitPath(segments);
    assert ([""] + segments)[1..] == segments;
  }

  lemma TargetSegments(t: Target)
    ensures t.Root? ==> Segments(TargetPath(t)) == Some([])
    ensures t.LoginTarget? ==> Segments(TargetPath(t)) == Some([NameText(LoginName)])
  {
    if t.Root? {
      assert Split("/", '/') == [""] + Split("", '/');
      assert Split("/", '/')[1..] == [""];
    } else {
      SegmentsOfPath([NameText(LoginName)]);
    }
  }

  /** Where following the table's redirects lands, and after how many. */
  datatype Landing = Landing(page: Page, redirects: nat)

  function Follow(path: string, isAuthenticated: bool, fuel: nat): (r: Option<Landing>)
    ensures r.Some? ==> r.value.redirects <= fuel
    ensures r.Some? && r.value.redirects == 0 ==> Navigate(path, isAuthenticated) == Render(r.value.page)
    decreases fuel
  {
    match Navigate(path, isAuthenticated)
    case Render(p) => Some(Landing(p, 0))
    case Redirect(t) =>
      if fuel == 0 then None
      else
        match Follow(TargetPath(t), isAuthenticated, fuel - 1)
        case None => None
        case Some(l) => Some(Landing(l.page, l.redirects + 1))
  }

  lemma NavigateRoot(isAuthenticated: bool)
    ensures Navigate(TargetPath(Root), isAuthenticated) == RouteElement(HomeRoute, isAuthenticated)
  {
    TargetSegments(Root);
  }

  lemma NavigateLogin(isAuthenticated: bool)
    ensures Navigate(TargetPath(LoginTarget), isAuthenticated) == RouteElement(LoginRoute, isAuthenticated)
  {
    TargetSegments(LoginTarget);
    NameRoundTrip(LoginName);
  }

  /** '/' shows the home page with a session and otherwise goes on to the login page. */
  lemma RootLands(isAuthenticated: bool, fuel: nat)
    requires fuel >= 1
    ensures Follow(TargetPath(Root), isAuthenticated, fuel)
            == Some(if isAuthenticated then Landing(HomeView, 0) else Landing(LoginView, 1))
  {
    NavigateRoot(isAuthenticated);
    if !isAuthenticated {
      LoginTargetLands(isAuthenticated, fuel - 1);
    }
  }

  /** '/login' shows the login page without a session and otherwise goes on to the home page. */
  lemma LoginTargetLands(isAuthenticated: bool, fuel: nat)
    requires isAuthenticated ==> fuel >= 1
    ensures Follow(TargetPath(LoginTarget), isAuthenticated, fuel)
            == Some(if isAuthenticated then Landing(HomeView, 1) else Landing(LoginView, 0))
  {
    NavigateLogin(isAuthenticated);
    if isAuthenticated {
      NavigateRoot(isAuthenticated);
    }
  }

  /** A rendered public page appears only without a session, and a rendered protected page is neither public one. */
  lemma RenderedPage(p: Pattern, isAuthenticated: bool)
    requires RouteElement(p, isAuthenticated).Render?
    ensures isAuthenticated ==> RouteElement(p, isAuthenticated).page !in {LoginView, RegisterView}
    ensures !isAuthenticated ==>
              RouteElement(p, isAuthenticated).page == LoginView
              || (RouteElement(p, isAuthenticated).page == RegisterView && p.RegisterRoute?)
  {
  }

  /**
   * Every location settles within two redirects. Without a session it lands
   * on the login page, or on the register page when that was asked for; with
   * one it never lands on either.
   */
  lemma RedirectsSettle(path: string, isAuthenticated: bool)
    ensures Follow(path, isAuthenticated, 2).Some?
    ensures Follow(path, isAuthenticated, 2).value.redirects <= 2
    ensures !isAuthenticated ==>
              Follow(path, isAuthenticated, 2).value.page == LoginView
              || (Follow(path, isAuthenticated, 2).value.page == RegisterView && Selected(path).RegisterRoute?)
    ensures isAuthenticated ==>
              Follow(path, isAuthenticated, 2).value.page !in {LoginView, RegisterView}
  {
    var e := Navigate(path, isAuthenticated);
    if e.Render? {
      assert Follow(path, isAuthenticated, 2) == Some(Landing(e.page, 0));
      RenderedPage(Selected(path), isAuthenticated);
    } else if e.to.Root? {
      RootLands(isAuthenticated, 1);
    } else {
      LoginTargetLands(isAuthenticated, 1);
    }
  }
}
