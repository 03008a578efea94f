/**
 * `WalletConnect`: the abbreviated address on the connected chip, the choice
 * between that chip and the connect dialog, and the dialog's `isOpen` flag.
 */
module WalletConnect {
  import opened Optional
  import opened JsText

  /**
   * The chip text: `address.slice(0, 6) + "..." + address.slice(-4)` when the
   * address is a non-empty string, "Connected" otherwise.
   */
  function AddressLabel(address: Option<string>): string
  {
    if address.Some? && address.value != "" then Take(address.value, 6) + "..." + TakeLast(address.value, 4)
    else "Connected"
  }

  /**
   * A long address shows its first six and last four characters around "...";
   * a short one is shown in both halves; no address, or an empty one, reads "Connected".
   */
  lemma AddressLabelText(a: string)
    ensures AddressLabel(None) == "Connected" && AddressLabel(Some("")) == "Connected"
    ensures |a| >= 6 ==> AddressLabel(Some(a)) == a[..6] + "..." + a[|a| - 4..]
    ensures 0 < |a| <= 4 ==> AddressLabel(Some(a)) == a + "..." + a
    ensures a != "" ==> |AddressLabel(Some(a))| == (if |a| < 6 then |a| else 6) + 3 + (if |a| < 4 then |a| else 4)
  {
  }

  /** The address the layout passes once connected. */
  lemma SampleAddress()
    ensures AddressLabel(Some("syntax.near")) == "syntax...near"
  {
    var a := "syntax.near";
    assert a[..6] == "syntax" && a[|a| - 4..] == "near";
  }

  /** What the component renders. */
  datatype View = AddressChip(text: string) | ConnectDialog(open: bool)

  function Render(isConnected: bool, address: Option<string>, isOpen: bool): View
  {
    if isConnected then AddressChip(AddressLabel(address)) else ConnectDialog(isOpen)
  }

  /** The chip and the dialog are exclusive: the chip exactly when connected, the dialog open exactly as `isOpen`. */
  lemma RenderExclusive(isConnected: bool, address: Option<string>, isOpen: bool)
    ensures Render(isConnected, address, isOpen).AddressChip? <==> isConnected
    ensures Render(isConnected, address, isOpen).ConnectDialog? <==> !isConnected
    ensures !isConnected ==> Render(isConnected, address, isOpen).open == isOpen
    ensures isConnected ==> Render(isConnected, address, isOpen).text == AddressLabel(address)
  {
  }

  /** The dialog flag, and the number of times the `onConnect` callback has been called. */
  class Widget {
    var isOpen: bool
    var connectCalls: nat

    constructor ()
      ensures !isOpen && connectCalls == 0
    {
      isOpen := false;
      connectCalls := 0;
    }

    /** `onOpenChange`: the trigger button opens the dialog, dismissing it closes it. */
    method OpenChange(open: bool)
      modifies this
      ensures isOpen == open && connectCalls == old(connectCalls)
    {
      isOpen := open;
    }

    /** `handleConnect`: call `onConnect` once, then close the dialog. */
    method HandleConnect()
      modifies this
      ensures connectCalls == old(connectCalls) + 1 && !isOpen
    {
      connectCalls := connectCalls + 1;
      isOpen := false;
    }
  }
}
