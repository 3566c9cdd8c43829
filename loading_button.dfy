/**
 * `LoadingButton` as a class whose fields its methods update in place.  Each
 * method is proved to move the button's view exactly as the matching function
 * of ButtonSpec says, and to keep ButtonInvariant.
 */
module Button {
  import opened ButtonSpec

  class LoadingButton {
    var buttonState: ButtonState
    var buttonText: Label
    var buttonBackgroundColor: Colour
    var progress: real
    /** Whether the current value animator is running. */
    var animatorRunning: bool
    var isEnabled: bool
    /** Redraws (`invalidate`) and layout passes (`requestLayout`) requested so far. */
    var redrawRequests: nat
    var layoutRequests: nat

    /** The fields as one value. */
    function View(): ButtonView
      reads this
    {
      ButtonView(buttonState, buttonText, buttonBackgroundColor, progress,
                 animatorRunning, isEnabled, redrawRequests, layoutRequests)
    }

    predicate Valid()
      reads this
    {
      ButtonInvariant(View())
    }

    /** Inflation from the layout, whose `text` attribute gives the first text. */
    constructor (layoutText: string)
      ensures Valid()
      ensures View() == Created(layoutText)
    {
      buttonState := Idle;
      buttonText := FromLayout(layoutText);
      buttonBackgroundColor := Resolved(ColorPrimary);
      progress := 0.0;
      animatorRunning := false;
      isEnabled := true;
      redrawRequests := 0;
      layoutRequests := 0;
    }

    /** The observable setter: store the state, run its entry action, request a redraw. */
    method SetLoadingButtonState(state: ButtonState)
      requires Valid()
      modifies this
      ensures Valid()
      ensures View() == Assign(state, old(View()))
    {
      AssignKeepsInvariant(state, View());
      buttonState := state;
      match state {
        case Loading => SetupLoadingState();
        case Completed => SetupCompletedState();
        case Idle => SetupIdleState();
      }
      redrawRequests := redrawRequests + 1;
    }

    method SetupLoadingState()
      modifies this
      ensures View() == ButtonSpec.SetupLoadingState(old(View()))
    {
      SetText(WeAreLoading);
      SetBgColor(ResourceId(Blue));
      animatorRunning := true;
      DisableButton();
    }

    method SetupIdleState()
      modifies this
      ensures View() == ButtonSpec.SetupIdleState(old(View()))
    {
      SetText(Download);
    }

    method SetupCompletedState()
      modifies this
      ensures View() == ButtonSpec.SetupCompletedState(old(View()))
    {
      SetText(Downloaded);
      SetBgColor(ResourceId(ColorPrimary));
      animatorRunning := false;
      ResetProgress();
      EnableButton();
    }

    method SetText(text: Label)
      modifies this
      ensures View() == ButtonSpec.SetText(old(View()), text)
    {
      buttonText := text;
      redrawRequests := redrawRequests + 1;
      layoutRequests := layoutRequests + 1;
    }

    method SetBgColor(colour: Colour)
      modifies this
      ensures View() == ButtonSpec.SetBgColor(old(View()), colour)
    {
      buttonBackgroundColor := colour;
      redrawRequests := redrawRequests + 1;
      layoutRequests := layoutRequests + 1;
    }

    method ResetProgress()
      modifies this
      ensures View() == ButtonSpec.ResetProgress(old(View()))
    {
      progress := 0.0;
    }

    method EnableButton()
      modifies this
      ensures View() == ButtonSpec.EnableButton(old(View()))
    {
      isEnabled := true;
    }

    method DisableButton()
      modifies this
      ensures View() == ButtonSpec.DisableButton(old(View()))
    {
      isEnabled := false;
    }

    /**
     * The animator's update listener: progress takes the animated value and a
     * redraw is requested.  Only a running animator calls it, with a value of
     * its 0f..1f range.
     */
    method OnAnimationUpdate(animatedValue: real)
      requires Valid() && animatorRunning
      requires 0.0 <= animatedValue <= 1.0
      modifies this
      ensures Valid()
      ensures View() == Tick(old(View()), animatedValue)
    {
      TickKeepsInvariant(View(), animatedValue);
      progress := animatedValue;
      redrawRequests := redrawRequests + 1;
    }

    /**
     * `onDraw`: the paint calls, in order, for a view measured at the given
     * size.  The background comes first, the progress overlay and arc follow
     * only in `Loading`, the text comes last.
     */
    method OnDraw(measuredWidth: nat, measuredHeight: nat) returns (layers: seq<Layer>)
      requires Valid()
      ensures layers == Render(View(), measuredWidth, measuredHeight)
    {
      var backgroundWidth := measuredWidth as real;
      var backgroundHeight := measuredHeight as real;
      layers := [FillColour(buttonBackgroundColor), BackgroundRect(backgroundWidth, backgroundHeight)];
      match buttonState {
        case Loading =>
          var overlayWidth := progress * measuredWidth as real;
          layers := layers + [ProgressRect(overlayWidth, backgroundHeight)];
          var sweep := progress * 360.0;
          layers := layers + [ProgressArc(sweep)];
          assert overlayWidth == OverlayWidth(progress, measuredWidth);
          assert sweep == ArcSweep(progress);
        case Completed =>
        case Idle =>
      }
      layers := layers + [Text(buttonText)];
    }
  }
}
