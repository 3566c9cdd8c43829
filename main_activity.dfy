/**
 * `MainActivity` as a class whose handlers update its fields and its button
 * in place.  Each handler is proved to move the activity exactly as the
 * matching function of ActivitySpec says, and to keep ActivityInvariant.
 * The download manager is a parameter: the id `enqueue` returns and the
 * status row a query yields are given to the handlers.
 */
module Activity {
  import opened Wrappers
  import opened ButtonSpec
  import opened ActivitySpec
  import opened Button

  class MainActivity {
    var downloadID: int
    var selectedGitHubRepository: Option<string>
    var selectedGitHubFileName: Option<FileName>
    /** The button found in the layout; it is looked up once and never replaced. */
    const loadingButton: LoadingButton
    /** The toasts, button assignments, enqueued downloads and notifications so far. */
    ghost var effects: seq<Effect>

    ghost function Model(): ActivityView
      reads this, loadingButton
    {
      ActivityView(downloadID, selectedGitHubRepository, selectedGitHubFileName, loadingButton.View(), effects)
    }

    ghost predicate Valid()
      reads this, loadingButton
    {
      loadingButton.Valid() && ActivityInvariant(Model())
    }

    /** `onCreate`: the layout's button, then `setupViews`.  Receiver registration and the channel are left out. */
    constructor (layoutText: string)
      ensures Valid() && fresh(loadingButton)
      ensures Model() == OnCreate(layoutText)
    {
      downloadID := 0;
      selectedGitHubRepository := None;
      selectedGitHubFileName := None;
      effects := [];
      loadingButton := new LoadingButton(layoutText);
      new;
      SetupViews();
      OnCreateEstablishesInvariant(layoutText);
    }

    /** `setupViews`: the button is assigned `Idle` (the click listener is OnLoadingButtonClick). */
    method SetupViews()
      requires loadingButton.Valid()
      modifies this, loadingButton
      ensures loadingButton.Valid()
      ensures Model() == SetButton(old(Model()), Idle)
    {
      SetButtonState(Idle);
    }

    /** `loadingButton.setLoadingButtonState(s)`, logged. */
    method SetButtonState(s: ButtonState)
      requires loadingButton.Valid()
      modifies this, loadingButton
      ensures loadingButton.Valid()
      ensures Model() == SetButton(old(Model()), s)
    {
      loadingButton.SetLoadingButtonState(s);
      effects := effects + [ButtonSet(s)];
    }

    /** The button's click listener; `enqueuedId` is what the download manager's `enqueue` returns. */
    method OnLoadingButtonClick(enqueuedId: int)
      requires Valid()
      modifies this, loadingButton
      ensures Valid()
      ensures Model() == Click(old(Model()), enqueuedId)
    {
      ClickKeepsInvariant(Model(), enqueuedId);
      if selectedGitHubRepository == None {
        SetButtonState(Completed);
        ShowToast(NoRepositorySelected);
        return;
      }
      Download(enqueuedId);
    }

    method ShowToast(message: Message)
      modifies this
      ensures Model() == old(Model()).(effects := old(Model()).effects + [Toast(message)])
    {
      effects := effects + [Toast(message)];
    }

    /**
     * `download`: the button goes to `Loading`, then the request for the
     * selected URL is enqueued and the returned id kept.  Creating the target
     * directory is left out.
     */
    method Download(enqueuedId: int)
      requires loadingButton.Valid() && selectedGitHubRepository.Some?
      modifies this, loadingButton
      ensures loadingButton.Valid()
      ensures Model() == ActivitySpec.Download(old(Model()), enqueuedId)
    {
      SetButtonState(Loading);
      effects := effects + [Enqueue(selectedGitHubRepository.value, DownloadDestination, enqueuedId)];
      downloadID := enqueuedId;
    }

    /** `onRadioButtonClicked`. */
    method OnRadioButtonClicked(view: ClickedView)
      requires Valid()
      modifies this
      ensures Valid()
      ensures Model() == RadioClicked(old(Model()), view)
    {
      RadioClickedKeepsInvariant(Model(), view);
      if !view.RadioButton? {
        return;
      }
      match view.id {
        case GlideButton => SetupGlide();
        case LoadAppButton => SetupLoadApp();
        case RetrofitButton => SetupRetrofit();
        case OtherId(_) =>
      }
    }

    method SetupGlide()
      modifies this
      ensures Model() == Select(old(Model()), Glide)
    {
      selectedGitHubRepository := Some("https://github.com/bumptech/glide");
      selectedGitHubFileName := Some(GlideText);
    }

    method SetupLoadApp()
      modifies this
      ensures Model() == Select(old(Model()), LoadApp)
    {
      selectedGitHubRepository := Some("https://github.com/udacity/nd940-c3-advanced-android-programming-project-starter");
      selectedGitHubFileName := Some(LoadAppText);
    }

    method SetupRetrofit()
      modifies this
      ensures Model() == Select(old(Model()), Retrofit)
    {
      selectedGitHubRepository := Some("https://github.com/square/retrofit");
      selectedGitHubFileName := Some(RetrofitText);
    }

    /**
     * `receiver.onReceive`.  `row` is the status of the first row the
     * download manager's query yields, if any.
     */
    method OnReceive(intent: Intent, row: Option<int>)
      requires Valid()
      modifies this, loadingButton
      ensures Valid()
      ensures Model() == Receive(old(Model()), intent, row)
    {
      ReceiveKeepsInvariant(Model(), intent, row);
      var id := intent.extraDownloadId.GetOr(-1);
      var action := intent.action;
      if downloadID != id {
        return;
      }
      if action != Some(ActionDownloadComplete) {
        return;
      }
      ShowNotification(intent, row);
    }

    /**
     * `showNotification`: the download manager is queried for the intent's id
     * (0 if absent) and `row` is its answer.  With a row, the button ends
     * `Completed` and one notification is sent with the status string.
     */
    method ShowNotification(intent: Intent, row: Option<int>)
      requires loadingButton.Valid()
      modifies this, loadingButton
      ensures loadingButton.Valid()
      ensures Model() == ActivitySpec.ShowNotification(old(Model()), row)
    {
      if row.None? {
        return;
      }
      var status := row.value;
      if status == StatusSuccessful {
        SetButtonState(Completed);
        SendNotification(NameTextOf(selectedGitHubFileName), Success);
        return;
      }
      SetButtonState(Completed);
      SendNotification(NameTextOf(selectedGitHubFileName), Failed);
    }

    /** `sendNotification`, logged. */
    method SendNotification(name: NameText, status: StatusText)
      modifies this
      ensures Model() == old(Model()).(effects := old(Model()).effects + [Notify(name, status)])
    {
      effects := effects + [Notify(name, status)];
    }
  }
}
