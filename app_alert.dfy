/** The alert hook: one alert on screen at a time, with the callbacks of its two buttons
    held in mutable references beside the displayed state. A callback is named by an
    identifier; pressing a button hands back the one to run, and the caller runs it after
    the press has closed the alert. */
module AppAlert {
  import opened Wrappers

  datatype Variant = Info | Success | Error

  /** A button callback. */
  type CallbackId = nat

  /** The argument of `show`. */
  datatype ShowParams = ShowParams(
    title: string,
    message: Option<string>,
    variant: Option<Variant>,
    primaryText: Option<string>,
    secondaryText: Option<string>,
    onPrimaryPress: Option<CallbackId>,
    onSecondaryPress: Option<CallbackId>)

  const DefaultPrimaryText := "OK"

  /** What the hook hands to the modal. `onPrimaryPress` is always wired; `onRequestClose`
      is always `close`, so neither is recorded. */
  datatype AlertProps = AlertProps(
    visible: bool,
    title: string,
    message: Option<string>,
    variant: Variant,
    primaryText: string,
    secondaryText: Option<string>,
    secondaryWired: bool,
    dismissOnBackdropPress: bool)

  class AlertHook {
    var visible: bool
    var title: string
    var message: Option<string>
    var variant: Variant
    var primaryText: string
    var secondaryText: Option<string>
    var primaryCallback: Option<CallbackId>
    var secondaryCallback: Option<CallbackId>

    /** The initial state: hidden, empty title, `info`, `OK`, no callbacks. */
    constructor ()
      ensures !visible && title == "" && message == None && variant == Info
      ensures primaryText == DefaultPrimaryText && secondaryText == None
      ensures primaryCallback == None && secondaryCallback == None
    {
      visible := false;
      title := "";
      message := None;
      variant := Info;
      primaryText := DefaultPrimaryText;
      secondaryText := None;
      primaryCallback := None;
      secondaryCallback := None;
    }

    /** `close`: hide the alert but keep what it showed; forget both callbacks. */
    method Close()
      modifies this
      ensures !visible
      ensures title == old(title) && message == old(message) && variant == old(variant)
      ensures primaryText == old(primaryText) && secondaryText == old(secondaryText)
      ensures primaryCallback == None && secondaryCallback == None
    {
      visible := false;
      primaryCallback := None;
      secondaryCallback := None;
    }

    /** `show`: replace everything, with `info` and `OK` as the defaults. */
    method Show(p: ShowParams)
      modifies this
      ensures visible
      ensures title == p.title && message == p.message && secondaryText == p.secondaryText
      ensures variant == p.variant.GetOr(Info) && primaryText == p.primaryText.GetOr(DefaultPrimaryText)
      ensures primaryCallback == p.onPrimaryPress && secondaryCallback == p.onSecondaryPress
    {
      primaryCallback := p.onPrimaryPress;
      secondaryCallback := p.onSecondaryPress;
      visible := true;
      title := p.title;
      message := p.message;
      variant := p.variant.GetOr(Info);
      primaryText := p.primaryText.GetOr(DefaultPrimaryText);
      secondaryText := p.secondaryText;
    }

    /** `onPrimaryPress`: take the stored callback, close, and return the callback to run. */
    method OnPrimaryPress() returns (run: Option<CallbackId>)
      modifies this
      ensures run == old(primaryCallback)
      ensures !visible && primaryCallback == None && secondaryCallback == None
      ensures title == old(title) && message == old(message) && variant == old(variant)
      ensures primaryText == old(primaryText) && secondaryText == old(secondaryText)
    {
      run := primaryCallback;
      Close();
    }

    /** `onSecondaryPress`, the same for the secondary button. */
    method OnSecondaryPress() returns (run: Option<CallbackId>)
      modifies this
      ensures run == old(secondaryCallback)
      ensures !visible && primaryCallback == None && secondaryCallback == None
      ensures title == old(title) && message == old(message) && variant == old(variant)
      ensures primaryText == old(primaryText) && secondaryText == old(secondaryText)
    {
      run := secondaryCallback;
      Close();
    }

    /** `alertProps`: the secondary handler is wired only when there is secondary text. */
    function Props(): (props: AlertProps)
      reads this
      ensures props.secondaryWired <==> secondaryText.Some? && secondaryText.value != []
      ensures !props.dismissOnBackdropPress
      ensures props.visible == visible && props.title == title && props.message == message
      ensures props.variant == variant && props.primaryText == primaryText && props.secondaryText == secondaryText
    {
      AlertProps(visible, title, message, variant, primaryText, secondaryText,
        secondaryText.Some? && secondaryText.value != [], false)
    }

    /** A press followed by a callback that shows a new alert: the new alert stays up and
        owns the callbacks, since the press closed the old one before the callback ran. */
    method PressPrimaryThenShow(next: ShowParams) returns (run: Option<CallbackId>)
      modifies this
      ensures run == old(primaryCallback)
      ensures run.Some? ==> visible && title == next.title && primaryCallback == next.onPrimaryPress
      ensures run.None? ==> !visible && primaryCallback == None
    {
      run := OnPrimaryPress();
      if run.Some? {
        Show(next);
      }
    }

    /** Pressing twice: the second press finds no callback to run. */
    method PressPrimaryTwice() returns (first: Option<CallbackId>, second: Option<CallbackId>)
      modifies this
      ensures first == old(primaryCallback) && second == None
      ensures !visible
    {
      first := OnPrimaryPress();
      second := OnPrimaryPress();
    }

    /** The same for the secondary button. */
    method PressSecondaryTwice() returns (first: Option<CallbackId>, second: Option<CallbackId>)
      modifies this
      ensures first == old(secondaryCallback) && second == None
      ensures !visible
    {
      first := OnSecondaryPress();
      second := OnSecondaryPress();
    }
  }
}
