/** The two fixed code-to-name tables of the URB decoder and the name lookups with
    their synthetic fall-back names. */
module UrbTables {
  import opened Text

  /** `URBFunction`: every member name is `URB_FUNCTION_` and one of these suffixes;
      the codes are exactly 0x0000 through 0x002C, so the code is the index. */
  const FunctionCount: int := 0x002D

  function FunctionSuffix(code: int): string
    requires 0 <= code < FunctionCount
  {
    match code
    case 0x0000 => "SELECT_CONFIGURATION"
    case 0x0001 => "SELECT_INTERFACE"
    case 0x0002 => "ABORT_PIPE"
    case 0x0003 => "TAKE_FRAME_LENGTH_CONTROL"
    case 0x0004 => "RELEASE_FRAME_LENGTH_CONTROL"
    case 0x0005 => "GET_FRAME_LENGTH"
    case 0x0006 => "SET_FRAME_LENGTH"
    case 0x0007 => "GET_CURRENT_FRAME_NUMBER"
    case 0x0008 => "CONTROL_TRANSFER"
    case 0x0009 => "BULK_OR_INTERRUPT_TRANSFER"
    case 0x000A => "ISOCH_TRANSFER"
    case 0x000B => "GET_DESCRIPTOR_FROM_DEVICE"
    case 0x000C => "SET_DESCRIPTOR_TO_DEVICE"
    case 0x000D => "SET_FEATURE_TO_DEVICE"
    case 0x000E => "SET_FEATURE_TO_INTERFACE"
    case 0x000F => "SET_FEATURE_TO_ENDPOINT"
    case 0x0010 => "CLEAR_FEATURE_TO_DEVICE"
    case 0x0011 => "CLEAR_FEATURE_TO_INTERFACE"
    case 0x0012 => "CLEAR_FEATURE_TO_ENDPOINT"
    case 0x0013 => "GET_STATUS_FROM_DEVICE"
    case 0x0014 => "GET_STATUS_FROM_INTERFACE"
    case 0x0015 => "GET_STATUS_FROM_ENDPOINT"
    case 0x0016 => "RESERVED_0X0016"
    case 0x0017 => "VENDOR_DEVICE"
    case 0x0018 => "VENDOR_INTERFACE"
    case 0x0019 => "VENDOR_ENDPOINT"
    case 0x001A => "CLASS_DEVICE"
    case 0x001B => "CLASS_INTERFACE"
    case 0x001C => "CLASS_ENDPOINT"
    case 0x001D => "RESERVE_0X001D"
    case 0x001E => "SYNC_RESET_PIPE_AND_CLEAR_STALL"
    case 0x001F => "CLASS_OTHER"
    case 0x0020 => "VENDOR_OTHER"
    case 0x0021 => "GET_STATUS_FROM_OTHER"
    case 0x0022 => "SET_FEATURE_TO_OTHER"
    case 0x0023 => "CLEAR_FEATURE_TO_OTHER"
    case 0x0024 => "GET_INTERFACE"
    case 0x0025 => "SET_INTERFACE"
    case 0x0026 => "GET_CONFIGURATION"
    case 0x0027 => "GET_DESCRIPTOR_FROM_ENDPOINT"
    case 0x0028 => "SET_DESCRIPTOR_TO_ENDPOINT"
    case 0x0029 => "SET_CONFIGURATION"
    case 0x002A => "GET_DESCRIPTOR_FROM_INTERFACE"
    case 0x002B => "SET_DESCRIPTOR_TO_INTERFACE"
    case _ => "GET_MS_FEATURE_DESCRIPTOR"  // 0x002C, the last code
  }

  const ControlTransfer: int := 0x0008

  /** `URBStatus`: the member name of each status code. */
  function StatusTableName(status: int): Option<string> {
    match status
    case 0x0000_0000 => Some("USBD_STATUS_SUCCESS")
    case 0x4000_0000 => Some("USBD_STATUS_PENDING")
    case 0xC000_0000 => Some("USBD_STATUS_ERROR")
    case 0xC000_0001 => Some("USBD_STATUS_HALTED")
    case 0xC000_0002 => Some("USBD_STATUS_INVALID_REQUEST")
    case 0xC000_0003 => Some("USBD_STATUS_INVALID_PIPE_HANDLE")
    case 0xC000_0004 => Some("USBD_STATUS_NO_BANDWIDTH")
    case 0xC000_0005 => Some("USBD_STATUS_INTERNAL_HC_ERROR")
    case 0xC000_0006 => Some("USBD_STATUS_ERROR_SHORT_TRANSFER")
    case 0xC000_0007 => Some("USBD_STATUS_BAD_START_FRAME")
    case 0xC000_0008 => Some("USBD_STATUS_ISOCH_REQUEST_FAILED")
    case 0xC000_0009 => Some("USBD_STATUS_FRAME_CONTROL_OWNED")
    case 0xC000_000A => Some("USBD_STATUS_FRAME_CONTROL_NOT_OWNED")
    case 0xC000_000B => Some("USBD_STATUS_NOT_SUPPORTED")
    case 0xC000_000C => Some("USBD_STATUS_INAVLID_URB_FUNCTION")
    case 0xC000_000D => Some("USBD_STATUS_INVALID_PARAMETER")
    case 0xC000_000E => Some("USBD_STATUS_ERROR_BUSY")
    case _ => None
  }

  const Two32: int := 0x1_0000_0000

  /** `_get_urb_function_name`: the table name, or `UNKNOWN_0x` and the code in
      four-digit upper-case hexadecimal. */
  function FunctionName(code: int): string {
    if 0 <= code < FunctionCount then "URB_FUNCTION_" + FunctionSuffix(code)
    else UnknownFunctionText(code)
  }

  function UnknownFunctionText(code: int): string {
    "UNKNOWN_0x" + FormatHex(code, 4)
  }

  /** `_get_status_name`: the table name of the status masked to 32 bits, or
      `STATUS_0x` and the UNMASKED status in eight-digit upper-case hexadecimal. */
  function StatusName(status: int): string {
    match StatusTableName(status % Two32)
    case Some(name) => name
    case None => UnknownStatusText(status)
  }

  function UnknownStatusText(status: int): string {
    "STATUS_0x" + FormatHex(status, 8)
  }

  predicate StartsWith(s: string, prefix: string) {
    |prefix| <= |s| && s[..|prefix|] == prefix
  }

  /** A code outside the table gets `UNKNOWN_0x` followed by exactly four upper-case
      hexadecimal digits that spell the code, whenever it fits in 16 bits. */
  lemma UnknownFunctionName(code: int)
    requires 0x002C < code <= 0xFFFF
    ensures exists d :: FunctionName(code) == "UNKNOWN_0x" + d && |d| == 4
              && (forall i :: 0 <= i < 4 ==> IsUpperHexDigit(d[i])) && HexValue(d) == code
    ensures !StartsWith(FunctionName(code), "URB_FUNCTION_")
  {
    UnknownFunctionTextSpells(code);
    assert FunctionName(code) == UnknownFunctionText(code);
  }

  lemma UnknownFunctionTextSpells(code: int)
    requires 0 <= code <= 0xFFFF
    ensures exists d :: UnknownFunctionText(code) == "UNKNOWN_0x" + d && |d| == 4
              && (forall i :: 0 <= i < 4 ==> IsUpperHexDigit(d[i])) && HexValue(d) == code
    ensures !StartsWith(UnknownFunctionText(code), "URB_FUNCTION_")
  {
    FormatHexFixedWidth(code, 4);
    assert UnknownFunctionText(code)[1] == 'N';
  }

  /** Distinct codes in 0..0xFFFF never share a name: the table names are pairwise
      different from the fall-back names, and the fall-back names spell their codes. */
  lemma {:induction false} FunctionNameInjective(a: int, b: int)
    requires 0 <= a <= 0xFFFF && 0 <= b <= 0xFFFF && a != b
    requires a > 0x002C
    ensures FunctionName(a) != FunctionName(b)
  {
    UnknownFunctionName(a);
    if b > 0x002C {
      FormatHexFixedWidth(a, 4);
      FormatHexFixedWidth(b, 4);
      assert FunctionName(a)[10..] == FormatHex(a, 4);
      assert FunctionName(b)[10..] == FormatHex(b, 4);
    } else {
      assert StartsWith(FunctionName(b), "URB_FUNCTION_");
    }
  }

  /** The status name depends only on the status modulo 2^32 when that residue is a
      table code: a 32-bit value and its sign-extended form name alike. */
  lemma StatusNameMasked(status: int, k: int)
    requires StatusTableName(status % Two32).Some?
    ensures StatusName(status + k * Two32) == StatusTableName(status % Two32).value
  {
    assert (status + k * Two32) % Two32 == status % Two32;
  }

  /** For a 32-bit status outside the table the fall-back is `STATUS_0x` and exactly
      eight upper-case hexadecimal digits spelling the status. */
  lemma UnknownStatusName(status: int)
    requires 0 <= status < Two32 && StatusTableName(status).None?
    ensures exists d :: StatusName(status) == "STATUS_0x" + d && |d| == 8
              && (forall i :: 0 <= i < 8 ==> IsUpperHexDigit(d[i])) && HexValue(d) == status
  {
    assert status % Two32 == status;
    assert StatusName(status) == UnknownStatusText(status);
    UnknownStatusTextSpells(status);
  }

  lemma UnknownStatusTextSpells(status: int)
    requires 0 <= status < Two32
    ensures exists d :: UnknownStatusText(status) == "STATUS_0x" + d && |d| == 8
              && (forall i :: 0 <= i < 8 ==> IsUpperHexDigit(d[i])) && HexValue(d) == status
  {
    assert Pow16(4) == 0x1_0000;
    assert Pow16(8) == Two32;
    FormatHexFixedWidth(status, 8);
  }

  /** The fall-back formats the unmasked value: a negative status whose 32-bit residue
      is not a table code is rendered with a minus sign after `STATUS_0x` ... */
  lemma UnknownNegativeStatusName(status: int)
    requires status < 0 && StatusTableName(status % Two32).None?
    ensures |StatusName(status)| >= 10 && StatusName(status)[..10] == "STATUS_0x-"
  {
    assert StatusName(status) == UnknownStatusText(status);
    NegativeStatusText(status);
  }

  lemma NegativeStatusText(status: int)
    requires status < 0
    ensures |UnknownStatusText(status)| >= 10 && UnknownStatusText(status)[..10] == "STATUS_0x-"
  {
  }

  /** ... and a status at or above 2^32 whose residue is not a table code gets more
      than eight digits. */
  lemma UnknownWideStatusName(status: int)
    requires status >= Two32 && StatusTableName(status % Two32).None?
    ensures |StatusName(status)| > 9 + 8
  {
    assert StatusName(status) == UnknownStatusText(status);
    WideStatusText(status);
  }

  lemma WideStatusText(status: int)
    requires status >= Two32
    ensures |UnknownStatusText(status)| > 9 + 8
  {
    var d := UpperHex(status);
    assert Pow16(4) == 0x1_0000;
    assert Pow16(8) == Two32;
    if |d| <= 8 {
      Pow16Monotone(|d|, 8);
    }
    assert UnknownStatusText(status) == "STATUS_0x" + PadZeros(d, 8);
  }

  /** The names of the codes in the common decoding scenarios. */
  lemma ControlTransferName()
    ensures FunctionName(ControlTransfer) == "URB_FUNCTION_CONTROL_TRANSFER"
  {
  }

  lemma SelectConfigurationName()
    ensures FunctionName(0) == "URB_FUNCTION_SELECT_CONFIGURATION"
  {
  }

  lemma SuccessStatusName()
    ensures StatusName(0) == "USBD_STATUS_SUCCESS"
  {
  }

  lemma UnknownFunctionNameFF()
    ensures FunctionName(0x00FF) == "UNKNOWN_0x00FF"
  {
    assert UpperHex(0xFF) == "FF";
  }
}
