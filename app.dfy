/**
 * The try-on page and the route guard (src/App.js): which pages a user may
 * open, how the user's credits and the "enough credits" flag are kept, the
 * checks made before a try-on starts, the progress shown while the try-on
 * service works, what happens when it finishes, and the reload button.
 *
 * The network calls (the credit lookup, the credit deduction, the try-on
 * service) are not made here: their outcomes are parameters of the methods
 * that consume them.
 */
module App {
  import opened Wrappers
  import opened AuthContext
  import opened PoseUtils

  // ---------------------------------------------------------------------
  // Routes
  // ---------------------------------------------------------------------

  /** What a guarded route renders. */
  datatype RouteView = LoadingView | Redirect(path: string) | AccessDenied | Children

  /** The roles admitted to "/". */
  const RootRoles: seq<string> := ["user", "admin", "super-admin"]

  /** The roles admitted to "/admin" and its sub-pages. */
  const AdminRoles: seq<string> := ["admin", "super-admin"]

  /**
   * `PrivateRoute`: the loading view while the session is being restored,
   * a redirect to the sign-in page when nobody is signed in, "access denied"
   * when a role list is given and does not hold the user's role, and the
   * page itself otherwise.
   */
  function PrivateRoute(loading: bool, user: Option<User>, allowedRoles: Option<seq<string>>): (r: RouteView)
    ensures loading ==> r == LoadingView
    ensures !loading && user.None? ==> r == Redirect(AuthPath)
    ensures !loading && user.Some? ==>
              (r == Children <==> allowedRoles.None? || user.value.role in allowedRoles.value)
              && (r != Children ==> r == AccessDenied)
  {
    if loading then LoadingView
    else if user.None? then Redirect(AuthPath)
    else if allowedRoles.Some? && user.value.role !in allowedRoles.value then AccessDenied
    else Children
  }

  /** The role list of the guarded route at `path` ("/admin" or "/"). */
  function RouteRoles(path: string): seq<string> {
    if path == AdminPath then AdminRoles else RootRoles
  }

  /** Whoever may open the administration pages may also open the home page. */
  lemma AdminAccessImpliesRootAccess(loading: bool, user: Option<User>)
    ensures PrivateRoute(loading, user, Some(AdminRoles)) == Children ==> PrivateRoute(loading, user, Some(RootRoles)) == Children
  {
  }

  /**
   * The page `login` navigates to admits the user exactly when the user's
   * role is one of "user", "admin" and "super-admin"; any other role lands
   * on "/" and is denied.
   */
  lemma LoginTargetAdmits(u: User)
    ensures PrivateRoute(false, Some(u), Some(RouteRoles(LoginTarget(u.role)))) == Children <==> u.role in RootRoles
  {
    if u.role == "admin" || u.role == "super-admin" {
      assert u.role in AdminRoles && u.role in RootRoles;
    }
  }

  // ---------------------------------------------------------------------
  // Credits and the try-on checks
  // ---------------------------------------------------------------------

  /** The credits shown to administrators, who are never limited. */
  const AdminCredits := 999

  predicate IsAdmin(user: Option<User>) {
    user.Some? && (user.value.role == "admin" || user.value.role == "super-admin")
  }

  /** A store id is truthy when present and not 0. */
  predicate StoreIdTruthy(storeId: Option<int>) {
    storeId.Some? && storeId.value != 0
  }

  /** A signed-in "user" attached to a store: the only kind whose credits are looked up. */
  predicate IsStoreUser(user: Option<User>) {
    user.Some? && user.value.role == "user" && StoreIdTruthy(user.value.storeId)
  }

  /** The answer to a credit lookup or deduction. */
  datatype CreditResponse =
    | Credits(credits: int)              // `success` with the store's (new) credit count
    | RequestFailed(status: Option<int>) // an error; `status` is the HTTP status when there was a response

  /** Why `handleTryOn` stops, checked in this order, or `Proceed`. */
  datatype TryOnGate = PosesDoNotMatch | InsufficientCredits | NoClothingSelected | Proceed

  /** A clothing URL is truthy when present and not empty. */
  predicate UrlTruthy(url: Option<string>) {
    url.Some? && url.value != ""
  }

  /**
   * The checks of `handleTryOn`, in order: the poses must match; a "user"
   * (and only a "user") must have enough credits; a clothing image must be
   * selected.
   */
  function TryOnCheck(posesMatch: Option<bool>, hasEnoughCredits: bool, user: Option<User>, clothingImageUrl: Option<string>)
    : (r: TryOnGate)
    ensures r == PosesDoNotMatch <==> posesMatch != Some(true)
    ensures r == InsufficientCredits <==>
              posesMatch == Some(true) && !hasEnoughCredits && user.Some? && user.value.role == "user"
    ensures r == NoClothingSelected <==>
              posesMatch == Some(true) && !(!hasEnoughCredits && user.Some? && user.value.role == "user")
              && !UrlTruthy(clothingImageUrl)
    ensures r == Proceed <==>
              posesMatch == Some(true) && (hasEnoughCredits || user.None? || user.value.role != "user")
              && UrlTruthy(clothingImageUrl)
  {
    if posesMatch != Some(true) then PosesDoNotMatch
    else if !hasEnoughCredits && user.Some? && user.value.role == "user" then InsufficientCredits
    else if !UrlTruthy(clothingImageUrl) then NoClothingSelected
    else Proceed
  }

  /** Administrators, and users who are not "user"s, are never stopped for credits. */
  lemma CreditsOnlyGateUsers(posesMatch: Option<bool>, hasEnoughCredits: bool, user: Option<User>, clothingImageUrl: Option<string>)
    requires user.None? || user.value.role != "user"
    ensures TryOnCheck(posesMatch, hasEnoughCredits, user, clothingImageUrl) != InsufficientCredits
    ensures TryOnCheck(posesMatch, hasEnoughCredits, user, clothingImageUrl)
            == TryOnCheck(posesMatch, true, user, clothingImageUrl)
  {
  }

  /** The progress shown while the service reports `logCount` log lines: 20 + 10 per line, at most 90. */
  function QueueProgress(logCount: nat): (p: int)
    ensures 20 <= p <= 90
    ensures p == 90 || p == 20 + 10 * logCount
    ensures logCount <= 7 ==> p == 20 + 10 * logCount
    ensures logCount >= 7 ==> p == 90
  {
    var p := 20 + logCount * 10;
    if p < 90 then p else 90
  }

  /** More log lines never move the progress bar back. */
  lemma QueueProgressMonotone(a: nat, b: nat)
    requires a <= b
    ensures QueueProgress(a) <= QueueProgress(b)
  {
  }

  // ---------------------------------------------------------------------
  // The page state
  // ---------------------------------------------------------------------

  datatype View = Upload | Processing | ResultView

  const PosesDoNotMatchAlert := "Poses do not match. Please use images with similar poses."
  const InsufficientCreditsAlert := "Insufficient credits to perform try-on. Please contact your administrator."
  const NoClothingAlert := "Please select a clothing image from the gallery."
  const SessionExpiredAlert := "Session expired. Please log in again."
  const DeductionRefusedAlert := "Insufficient credits. Please contact your administrator."
  const DeductionFailedAlert := "Warning: Credit deduction failed. Please contact administrator."

  /** The alert `handleTryOn` shows for a failed check. */
  function GateAlert(gate: TryOnGate): string {
    match gate
    case PosesDoNotMatch => PosesDoNotMatchAlert
    case InsufficientCredits => InsufficientCreditsAlert
    case NoClothingSelected => NoClothingAlert
    case Proceed => ""
  }

  /** The try-on page's state, with the page's `localStorage` and browser location. */
  class TryOnApp {
    var userCredits: int
    var hasEnoughCredits: bool
    var authError: bool
    var posesMatch: Option<bool>
    var poseStatus: string
    var clothingImageUrl: Option<string>
    var resultTryOnImage: Option<string>
    var loading: bool
    var progress: int
    var progressText: string
    var currentView: View
    var location: Option<string>
    const storage: LocalStorage

    /** `hasEnoughCredits` always says whether the credit count is positive. */
    predicate CreditsConsistent()
      reads this
    {
      hasEnoughCredits == (userCredits > 0)
    }

    constructor(storage: LocalStorage)
      ensures userCredits == 0 && !hasEnoughCredits && !authError && posesMatch == None && poseStatus == ""
      ensures clothingImageUrl == None && resultTryOnImage == None && !loading && progress == 0
      ensures progressText == "" && currentView == Upload && location == None && this.storage == storage
      ensures CreditsConsistent()
    {
      userCredits := 0;
      hasEnoughCredits := false;
      authError := false;
      posesMatch := None;
      poseStatus := "";
      clothingImageUrl := None;
      resultTryOnImage := None;
      loading := false;
      progress := 0;
      progressText := "";
      currentView := Upload;
      location := None;
      this.storage := storage;
    }

    /**
     * `fetchUserCredits` for `user`, given the lookup's answer.  A store
     * "user" with a stored token gets the store's credits, or 0 when the
     * lookup fails (401 also drops the stored session and flags an auth
     * error, 403 flags one); without a token the auth error is flagged.
     * Administrators get 999; everyone else 0.  In every case
     * `hasEnoughCredits` ends equal to "credits > 0".
     */
    method FetchUserCredits(user: Option<User>, response: CreditResponse)
      modifies this, storage
      ensures CreditsConsistent()
      ensures IsAdmin(user) ==>
                userCredits == AdminCredits && !authError && storage.items == old(storage.items)
      ensures !IsStoreUser(user) && !IsAdmin(user) ==>
                userCredits == 0 && !authError && storage.items == old(storage.items)
      ensures IsStoreUser(user) && !Truthy(old(storage.GetItem(TokenKey))) ==>
                userCredits == 0 && authError && storage.items == old(storage.items)
      ensures IsStoreUser(user) && Truthy(old(storage.GetItem(TokenKey))) && response.Credits? ==>
                userCredits == response.credits && !authError && storage.items == old(storage.items)
      ensures IsStoreUser(user) && Truthy(old(storage.GetItem(TokenKey))) && response.RequestFailed? ==>
                userCredits == 0
                && (response.status == Some(401) ==> authError && storage.items == old(storage.items) - {TokenKey, UserKey})
                && (response.status == Some(403) ==> authError && storage.items == old(storage.items))
                && (response.status != Some(401) && response.status != Some(403) ==>
                      authError == old(authError) && storage.items == old(storage.items))
      ensures posesMatch == old(posesMatch) && poseStatus == old(poseStatus) && clothingImageUrl == old(clothingImageUrl)
      ensures resultTryOnImage == old(resultTryOnImage) && loading == old(loading) && progress == old(progress)
      ensures progressText == old(progressText) && currentView == old(currentView) && location == old(location)
    {
      if IsStoreUser(user) {
        var token := storage.GetItem(TokenKey);
        if !Truthy(token) {
          authError := true;
          userCredits := 0;
          hasEnoughCredits := false;
          return;
        }
        match response {
          case Credits(credits) =>
            userCredits := credits;
            hasEnoughCredits := credits > 0;
            authError := false;
          case RequestFailed(status) =>
            if status == Some(401) {
              authError := true;
              storage.RemoveItem(TokenKey);
              storage.RemoveItem(UserKey);
            } else if status == Some(403) {
              authError := true;
            }
            userCredits := 0;
            hasEnoughCredits := false;
        }
      } else if IsAdmin(user) {
        hasEnoughCredits := true;
        userCredits := AdminCredits;
        authError := false;
      } else {
        userCredits := 0;
        hasEnoughCredits := false;
        authError := false;
      }
    }

    /**
     * The pose check that runs when both poses are known and the selected
     * clothing image is shown: records whether the poses are similar.
     */
    method CheckPoses(m: MathLib, poseNetLoaded: bool, fullBodyPose: Option<Pose>, clothingPose: Option<Pose>,
                      showSelectedImage: bool)
      requires Atan2Laws(m)
      modifies this
      ensures poseNetLoaded && fullBodyPose.Some? && clothingPose.Some? && showSelectedImage ==>
                posesMatch == Some(PosesSimilar(m, fullBodyPose, clothingPose))
                && poseStatus == (if PosesSimilar(m, fullBodyPose, clothingPose) then "Poses match!" else "Poses do not match.")
      ensures !(poseNetLoaded && fullBodyPose.Some? && clothingPose.Some? && showSelectedImage) ==>
                posesMatch == old(posesMatch) && poseStatus == old(poseStatus)
      ensures userCredits == old(userCredits) && hasEnoughCredits == old(hasEnoughCredits) && authError == old(authError)
      ensures clothingImageUrl == old(clothingImageUrl) && resultTryOnImage == old(resultTryOnImage)
      ensures loading == old(loading) && progress == old(progress) && progressText == old(progressText)
      ensures currentView == old(currentView) && location == old(location)
    {
      if fullBodyPose.Some? && clothingPose.Some? && showSelectedImage && poseNetLoaded {
        var similar := ComparePoses(m, fullBodyPose, clothingPose);
        posesMatch := Some(similar);
        poseStatus := if similar then "Poses match!" else "Poses do not match.";
      }
    }

    /** The gallery reports the selected clothing image's URL. */
    method SelectClothing(url: string)
      modifies this
      ensures clothingImageUrl == Some(url)
      ensures userCredits == old(userCredits) && hasEnoughCredits == old(hasEnoughCredits) && authError == old(authError)
      ensures posesMatch == old(posesMatch) && poseStatus == old(poseStatus) && resultTryOnImage == old(resultTryOnImage)
      ensures loading == old(loading) && progress == old(progress) && progressText == old(progressText)
      ensures currentView == old(currentView) && location == old(location)
    {
      clothingImageUrl := Some(url);
    }

    /**
     * The synchronous start of `handleTryOn`: the first failed check stops it
     * with that check's alert and changes nothing; otherwise the page shows
     * the processing view at 10%.
     */
    method HandleTryOn(user: Option<User>) returns (gate: TryOnGate, alert: Option<string>)
      modifies this
      ensures gate == TryOnCheck(old(posesMatch), old(hasEnoughCredits), user, old(clothingImageUrl))
      ensures gate != Proceed ==>
                alert == Some(GateAlert(gate))
                && loading == old(loading) && resultTryOnImage == old(resultTryOnImage) && progress == old(progress)
                && progressText == old(progressText) && currentView == old(currentView)
      ensures gate == Proceed ==>
                alert == None && loading && resultTryOnImage == None && progress == 10
                && progressText == "Initializing..." && currentView == Processing
      ensures userCredits == old(userCredits) && hasEnoughCredits == old(hasEnoughCredits) && authError == old(authError)
      ensures posesMatch == old(posesMatch) && poseStatus == old(poseStatus) && clothingImageUrl == old(clothingImageUrl)
      ensures location == old(location)
    {
      if posesMatch != Some(true) {
        return PosesDoNotMatch, Some(PosesDoNotMatchAlert);
      }
      if !hasEnoughCredits && user.Some? && user.value.role == "user" {
        return InsufficientCredits, Some(InsufficientCreditsAlert);
      }
      if !UrlTruthy(clothingImageUrl) {
        return NoClothingSelected, Some(NoClothingAlert);
      }
      gate, alert := Proceed, None;
      loading := true;
      resultTryOnImage := None;
      progress := 0;
      currentView := Processing;
      progressText := "Initializing...";
      progress := 10;
    }

    /**
     * A queue update from the try-on service: while "IN_PROGRESS" the bar
     * moves to 20 + 10 per log line (at most 90) and the text shows the
     * latest log message; other updates change nothing.
     */
    method OnQueueUpdate(status: string, logs: seq<string>)
      modifies this
      ensures status == "IN_PROGRESS" ==> progress == QueueProgress(|logs|)
      ensures status != "IN_PROGRESS" ==> progress == old(progress)
      ensures progressText == (if status == "IN_PROGRESS" && |logs| > 0 then logs[|logs| - 1] else old(progressText))
      ensures userCredits == old(userCredits) && hasEnoughCredits == old(hasEnoughCredits) && authError == old(authError)
      ensures posesMatch == old(posesMatch) && poseStatus == old(poseStatus) && clothingImageUrl == old(clothingImageUrl)
      ensures resultTryOnImage == old(resultTryOnImage) && loading == old(loading)
      ensures currentView == old(currentView) && location == old(location)
    {
      if status == "IN_PROGRESS" {
        var currentProgress := QueueProgress(|logs|);
        progress := currentProgress;
        if |logs| > 0 {
          progressText := logs[|logs| - 1];
        }
      }
    }

    /**
     * The try-on service returned the image at `resultUrl`.  For a store
     * "user" the credit deduction's answer is then handled: new credits are
     * stored (keeping `hasEnoughCredits` equal to "credits > 0"); a 401 drops
     * the stored session and leaves for the sign-in page, a 400 stops, both
     * leaving the processing view up; any other failure only warns.  Unless
     * stopped, the page then shows the result.
     */
    method FinishTryOn(user: Option<User>, resultUrl: string, deduction: CreditResponse) returns (alert: Option<string>)
      requires CreditsConsistent()
      modifies this, storage
      ensures CreditsConsistent()
      ensures progress == 100 && progressText == "Complete!" && resultTryOnImage == Some(resultUrl)
      ensures !IsStoreUser(user) ==>
                alert == None && currentView == ResultView && !loading && userCredits == old(userCredits)
                && storage.items == old(storage.items) && location == old(location)
      ensures IsStoreUser(user) && deduction.Credits? ==>
                alert == None && currentView == ResultView && !loading && userCredits == deduction.credits
                && storage.items == old(storage.items) && location == old(location)
      ensures IsStoreUser(user) && deduction == RequestFailed(Some(401)) ==>
                alert == Some(SessionExpiredAlert) && currentView == old(currentView) && loading == old(loading)
                && storage.items == old(storage.items) - {TokenKey, UserKey} && location == Some(AuthPath)
                && userCredits == old(userCredits)
      ensures IsStoreUser(user) && deduction == RequestFailed(Some(400)) ==>
                alert == Some(DeductionRefusedAlert) && currentView == old(currentView) && loading == old(loading)
                && storage.items == old(storage.items) && location == old(location) && userCredits == old(userCredits)
      ensures IsStoreUser(user) && deduction.RequestFailed? && deduction.status != Some(401) && deduction.status != Some(400) ==>
                alert == Some(DeductionFailedAlert) && currentView == ResultView && !loading
                && storage.items == old(storage.items) && location == old(location) && userCredits == old(userCredits)
      ensures authError == old(authError) && posesMatch == old(posesMatch) && poseStatus == old(poseStatus)
      ensures clothingImageUrl == old(clothingImageUrl)
    {
      alert := None;
      progress := 100;
      progressText := "Complete!";
      resultTryOnImage := Some(resultUrl);
      if IsStoreUser(user) {
        match deduction {
          case Credits(newCredits) =>
            userCredits := newCredits;
            hasEnoughCredits := newCredits > 0;
          case RequestFailed(status) =>
            if status == Some(401) {
              alert := Some(SessionExpiredAlert);
              storage.RemoveItem(TokenKey);
              storage.RemoveItem(UserKey);
              location := Some(AuthPath);
              return;
            } else if status == Some(400) {
              alert := Some(DeductionRefusedAlert);
              return;
            } else {
              alert := Some(DeductionFailedAlert);
            }
        }
      }
      currentView := ResultView;
      loading := false;
    }

    /** The try-on service failed: back to the upload view. */
    method FailTryOn()
      modifies this
      ensures currentView == Upload && !loading
      ensures userCredits == old(userCredits) && hasEnoughCredits == old(hasEnoughCredits) && authError == old(authError)
      ensures posesMatch == old(posesMatch) && poseStatus == old(poseStatus) && clothingImageUrl == old(clothingImageUrl)
      ensures resultTryOnImage == old(resultTryOnImage) && progress == old(progress) && progressText == old(progressText)
      ensures location == old(location)
    {
      currentView := Upload;
      loading := false;
    }

    /** `handleReload`: back to an empty upload view. */
    method HandleReload()
      modifies this
      ensures currentView == Upload && resultTryOnImage == None && progress == 0 && progressText == "" && !loading
      ensures userCredits == old(userCredits) && hasEnoughCredits == old(hasEnoughCredits) && authError == old(authError)
      ensures posesMatch == old(posesMatch) && poseStatus == old(poseStatus) && clothingImageUrl == old(clothingImageUrl)
      ensures location == old(location)
    {
      currentView := Upload;
      resultTryOnImage := None;
      progress := 0;
      progressText := "";
      loading := false;
    }
  }
}
