/** hooks/useModal.js: the state behind the app's alert dialog, two cells
    (`visible` and the configuration) and the helpers that fill them. */
module UseModal {

  datatype ButtonStyle = Default | Cancel | Destructive

  /** A press handler, named by what it does; `Noop` is `() => {}`. */
  datatype Handler = Noop | Action(name: string)

  datatype Button = Button(text: string, onPress: Handler, style: ButtonStyle)

  datatype ModalConfig = ModalConfig(title: string, message: string, buttons: seq<Button>)

  const OkText := "Tamam"
  const CancelText := "İptal"
  const ConfirmText := "Evet"

  /** The configuration before anything is shown (lines 5-9). */
  const InitialConfig := ModalConfig("", "", [Button(OkText, Noop, Default)])

  /** The one-button dialog of `showSuccess` and `showError`. */
  function AlertConfig(title: string, message: string, onPress: Handler): (c: ModalConfig)
    ensures c.title == title && c.message == message
    ensures |c.buttons| == 1 && c.buttons[0].text == OkText && c.buttons[0].style == Default
    ensures c.buttons[0].onPress == onPress
  {
    ModalConfig(title, message, [Button(OkText, onPress, Default)])
  }

  /** The two-button dialog of `showConfirm`: cancel first, confirm second. */
  function ConfirmConfig(title: string, message: string, onConfirm: Handler, onCancel: Handler): (c: ModalConfig)
    ensures c.title == title && c.message == message && |c.buttons| == 2
    ensures c.buttons[0] == Button(CancelText, onCancel, Cancel)
    ensures c.buttons[1] == Button(ConfirmText, onConfirm, Destructive)
  {
    ModalConfig(title, message, [Button(CancelText, onCancel, Cancel), Button(ConfirmText, onConfirm, Destructive)])
  }

  class Modal {
    var visible: bool
    var config: ModalConfig

    constructor()
      ensures !visible && config == InitialConfig
    {
      visible := false;
      config := InitialConfig;
    }

    /** Lines 11-14: show exactly the given configuration. */
    method ShowModal(c: ModalConfig)
      modifies this
      ensures visible && config == c
    {
      config := c;
      visible := true;
    }

    /** Lines 16-18: hide the dialog and keep its configuration, so hiding
        twice is hiding once. */
    method HideModal()
      modifies this
      ensures !visible && config == old(config)
    {
      visible := false;
    }

    /** Lines 21-27. */
    method ShowSuccess(title: string, message: string, onPress: Handler)
      modifies this
      ensures visible && config == AlertConfig(title, message, onPress)
    {
      ShowModal(AlertConfig(title, message, onPress));
    }

    /** Lines 29-35: the same dialog as `ShowSuccess`. */
    method ShowError(title: string, message: string, onPress: Handler)
      modifies this
      ensures visible && config == AlertConfig(title, message, onPress)
    {
      ShowModal(AlertConfig(title, message, onPress));
    }

    /** Lines 37-46. */
    method ShowConfirm(title: string, message: string, onConfirm: Handler, onCancel: Handler)
      modifies this
      ensures visible && config == ConfirmConfig(title, message, onConfirm, onCancel)
    {
      ShowModal(ConfirmConfig(title, message, onConfirm, onCancel));
    }
  }
}
