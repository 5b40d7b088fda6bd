/** The validation layer support (src/validation.c, src/validation.h): the layer check,
    the debug callback's console line, the debug messenger's create-info and the
    fallback when the messenger entry point cannot be looked up. */
module Validation {
  import opened Vk
  import opened Names

  /** `validationLayers`: the instance layers the renderer asks for in debug builds. */
  const ValidationLayers: seq<Name> := ["VK_LAYER_KHRONOS_validation"]

  /** `check_validation_layers_support`, given the names the instance reports: every
      requested layer must be among them. */
  function CheckValidationLayersSupport(available: seq<Name>): (r: bool)
    ensures r <==> forall i :: 0 <= i < |ValidationLayers| ==> ValidationLayers[i] in available
    ensures r <==> "VK_LAYER_KHRONOS_validation" in available
  {
    CheckAll(ValidationLayers, available).AllFound?
  }

  const VK_DEBUG_UTILS_MESSAGE_SEVERITY_VERBOSE_BIT_EXT: bv32 := 0x1
  const VK_DEBUG_UTILS_MESSAGE_SEVERITY_INFO_BIT_EXT: bv32 := 0x10
  const VK_DEBUG_UTILS_MESSAGE_SEVERITY_WARNING_BIT_EXT: bv32 := 0x100
  const VK_DEBUG_UTILS_MESSAGE_SEVERITY_ERROR_BIT_EXT: bv32 := 0x1000

  const VK_DEBUG_UTILS_MESSAGE_TYPE_GENERAL_BIT_EXT: bv32 := 0x1
  const VK_DEBUG_UTILS_MESSAGE_TYPE_VALIDATION_BIT_EXT: bv32 := 0x2
  const VK_DEBUG_UTILS_MESSAGE_TYPE_PERFORMANCE_BIT_EXT: bv32 := 0x4
  const VK_DEBUG_UTILS_MESSAGE_TYPE_DEVICE_ADDRESS_BINDING_BIT_EXT: bv32 := 0x8

  /** The four severities, each a single bit. */
  const Severities: seq<bv32> := [
    VK_DEBUG_UTILS_MESSAGE_SEVERITY_VERBOSE_BIT_EXT, VK_DEBUG_UTILS_MESSAGE_SEVERITY_INFO_BIT_EXT,
    VK_DEBUG_UTILS_MESSAGE_SEVERITY_WARNING_BIT_EXT, VK_DEBUG_UTILS_MESSAGE_SEVERITY_ERROR_BIT_EXT]

  datatype Stream = Stdout | Stderr

  /** The escape character that starts an ANSI colour sequence. */
  const Esc: string := "\U{1B}"

  /** A label in the given ANSI colour, reset afterwards, between brackets. */
  function Coloured(colour: string, text: string): string {
    "[" + Esc + "[0;" + colour + "m" + text + Esc + "[0m]"
  }

  const ErrorLabel: string := Coloured("30", "ERROR")
  const InfoLabel: string := Coloured("34", "INFO")
  const VerboseLabel: string := Coloured("32", "VERBOSE")
  const WarningLabel: string := Coloured("33", "WARNING")
  const UnknownSeverityLabel: string := "[UNKNOWN]"

  datatype SeverityClass = SeverityClass(stream: Stream, tag: string)

  /** The first `switch` of `debug_callback`: where a message goes and how its severity
      is labelled. Informational and verbose messages go to stdout, everything else to
      stderr; a value that is not exactly one of the four severities is unknown. */
  function ClassifySeverity(severity: bv32): (r: SeverityClass)
    ensures r.stream == Stdout <==>
      severity == VK_DEBUG_UTILS_MESSAGE_SEVERITY_INFO_BIT_EXT || severity == VK_DEBUG_UTILS_MESSAGE_SEVERITY_VERBOSE_BIT_EXT
    ensures r.tag == UnknownSeverityLabel <==> severity !in Severities
    ensures severity == VK_DEBUG_UTILS_MESSAGE_SEVERITY_ERROR_BIT_EXT ==> r.tag == ErrorLabel
    ensures severity == VK_DEBUG_UTILS_MESSAGE_SEVERITY_WARNING_BIT_EXT ==> r.tag == WarningLabel
    ensures severity == VK_DEBUG_UTILS_MESSAGE_SEVERITY_INFO_BIT_EXT ==> r.tag == InfoLabel
    ensures severity == VK_DEBUG_UTILS_MESSAGE_SEVERITY_VERBOSE_BIT_EXT ==> r.tag == VerboseLabel
  {
    if severity == VK_DEBUG_UTILS_MESSAGE_SEVERITY_ERROR_BIT_EXT then SeverityClass(Stderr, ErrorLabel)
    else if severity == VK_DEBUG_UTILS_MESSAGE_SEVERITY_INFO_BIT_EXT then SeverityClass(Stdout, InfoLabel)
    else if severity == VK_DEBUG_UTILS_MESSAGE_SEVERITY_VERBOSE_BIT_EXT then SeverityClass(Stdout, VerboseLabel)
    else if severity == VK_DEBUG_UTILS_MESSAGE_SEVERITY_WARNING_BIT_EXT then SeverityClass(Stderr, WarningLabel)
    else SeverityClass(Stderr, UnknownSeverityLabel)
  }

  /** Different severities get different labels, so the label identifies the severity. */
  lemma SeverityLabelsIdentifySeverity(a: bv32, b: bv32)
    requires a in Severities && b in Severities && a != b
    ensures ClassifySeverity(a).tag != ClassifySeverity(b).tag
  {
    // The colour digit tells the four labels apart.
    assert ErrorLabel[6] == '0' && InfoLabel[6] == '4' && VerboseLabel[6] == '2' && WarningLabel[6] == '3';
  }

  /** The second `switch` of `debug_callback`. The type argument is a set of flags, but
      only a value that is exactly one of the three named types gets its name; a
      combination of types, or the device-address-binding type, is unknown. */
  function TypeLabel(messageType: bv32): (r: string)
    ensures r == "UNKNOWN" <==>
      messageType !in {VK_DEBUG_UTILS_MESSAGE_TYPE_GENERAL_BIT_EXT, VK_DEBUG_UTILS_MESSAGE_TYPE_VALIDATION_BIT_EXT,
                       VK_DEBUG_UTILS_MESSAGE_TYPE_PERFORMANCE_BIT_EXT}
    ensures messageType == VK_DEBUG_UTILS_MESSAGE_TYPE_GENERAL_BIT_EXT ==> r == "GENERAL"
    ensures messageType == VK_DEBUG_UTILS_MESSAGE_TYPE_VALIDATION_BIT_EXT ==> r == "VALIDATION"
    ensures messageType == VK_DEBUG_UTILS_MESSAGE_TYPE_PERFORMANCE_BIT_EXT ==> r == "PERFORMANCE"
  {
    if messageType == VK_DEBUG_UTILS_MESSAGE_TYPE_GENERAL_BIT_EXT then "GENERAL"
    else if messageType == VK_DEBUG_UTILS_MESSAGE_TYPE_VALIDATION_BIT_EXT then "VALIDATION"
    else if messageType == VK_DEBUG_UTILS_MESSAGE_TYPE_PERFORMANCE_BIT_EXT then "PERFORMANCE"
    else "UNKNOWN"
  }

  /** A message that is both a validation and a performance message, and one about
      device address bindings, are both reported with an unknown type. */
  lemma CombinedTypesAreUnknown()
    ensures TypeLabel(VK_DEBUG_UTILS_MESSAGE_TYPE_VALIDATION_BIT_EXT | VK_DEBUG_UTILS_MESSAGE_TYPE_PERFORMANCE_BIT_EXT) == "UNKNOWN"
    ensures TypeLabel(VK_DEBUG_UTILS_MESSAGE_TYPE_DEVICE_ADDRESS_BINDING_BIT_EXT) == "UNKNOWN"
  {
  }

  /** What one call of `debug_callback` does: the line it writes, where, and its answer
      to the layer (`VK_FALSE`: do not abort the call that raised the message). */
  datatype CallbackEffect = CallbackEffect(stream: Stream, line: string, result: VkBool32)

  /** `debug_callback`. `message` is the text of `pMessage` before its terminator. */
  function DebugCallback(severity: bv32, messageType: bv32, message: string): (r: CallbackEffect)
    ensures r.result == VK_FALSE
    ensures r.stream == ClassifySeverity(severity).stream
    ensures var prefix := ClassifySeverity(severity).tag + ": " + TypeLabel(messageType) + " ";
      && |r.line| == |prefix| + |message| + 1
      && r.line[..|prefix|] == prefix
      && r.line[|prefix|..|r.line| - 1] == message
      && r.line[|r.line| - 1] == '\n'
  {
    var sc := ClassifySeverity(severity);
    var line := sc.tag + ": " + TypeLabel(messageType) + " " + message + "\n";
    CallbackEffect(sc.stream, line, VK_FALSE)
  }

  /** The message can be read back from the line: lines for the same severity and type
      are equal exactly when their messages are. */
  lemma CallbackLineKeepsMessage(severity: bv32, messageType: bv32, m1: string, m2: string)
    ensures DebugCallback(severity, messageType, m1).line == DebugCallback(severity, messageType, m2).line <==> m1 == m2
  {
    var l1 := DebugCallback(severity, messageType, m1).line;
    var l2 := DebugCallback(severity, messageType, m2).line;
    var n := |ClassifySeverity(severity).tag + ": " + TypeLabel(messageType) + " "|;
    if l1 == l2 {
      assert m1 == l1[n..|l1| - 1] == l2[n..|l2| - 1] == m2;
    }
  }

  /** The fields of `VkDebugUtilsMessengerCreateInfoEXT` the renderer sets: which
      severities and types the messenger reports. The callback is `debug_callback`. */
  datatype MessengerCreateInfo = MessengerCreateInfo(messageSeverity: bv32, messageType: bv32, flags: bv32)

  /** `populate_debugMessenger_createInfo`. */
  function PopulateDebugMessengerCreateInfo(): (r: MessengerCreateInfo)
    ensures r.messageSeverity & VK_DEBUG_UTILS_MESSAGE_SEVERITY_VERBOSE_BIT_EXT != 0
    ensures r.messageSeverity & VK_DEBUG_UTILS_MESSAGE_SEVERITY_WARNING_BIT_EXT != 0
    ensures r.messageSeverity & VK_DEBUG_UTILS_MESSAGE_SEVERITY_ERROR_BIT_EXT != 0
    ensures r.messageSeverity & VK_DEBUG_UTILS_MESSAGE_SEVERITY_INFO_BIT_EXT == 0
    ensures r.messageType & VK_DEBUG_UTILS_MESSAGE_TYPE_GENERAL_BIT_EXT != 0
    ensures r.messageType & VK_DEBUG_UTILS_MESSAGE_TYPE_VALIDATION_BIT_EXT != 0
    ensures r.messageType & VK_DEBUG_UTILS_MESSAGE_TYPE_PERFORMANCE_BIT_EXT != 0
    ensures r.messageType & VK_DEBUG_UTILS_MESSAGE_TYPE_DEVICE_ADDRESS_BINDING_BIT_EXT == 0
    ensures r.messageSeverity & !(VK_DEBUG_UTILS_MESSAGE_SEVERITY_VERBOSE_BIT_EXT
                                  | VK_DEBUG_UTILS_MESSAGE_SEVERITY_WARNING_BIT_EXT
                                  | VK_DEBUG_UTILS_MESSAGE_SEVERITY_ERROR_BIT_EXT) == 0
    ensures r.messageType & !(VK_DEBUG_UTILS_MESSAGE_TYPE_GENERAL_BIT_EXT
                              | VK_DEBUG_UTILS_MESSAGE_TYPE_VALIDATION_BIT_EXT
                              | VK_DEBUG_UTILS_MESSAGE_TYPE_PERFORMANCE_BIT_EXT) == 0
    ensures r.flags == 0
  {
    MessengerCreateInfo(
      VK_DEBUG_UTILS_MESSAGE_SEVERITY_VERBOSE_BIT_EXT
        | VK_DEBUG_UTILS_MESSAGE_SEVERITY_WARNING_BIT_EXT
        | VK_DEBUG_UTILS_MESSAGE_SEVERITY_ERROR_BIT_EXT,
      VK_DEBUG_UTILS_MESSAGE_TYPE_GENERAL_BIT_EXT
        | VK_DEBUG_UTILS_MESSAGE_TYPE_VALIDATION_BIT_EXT
        | VK_DEBUG_UTILS_MESSAGE_TYPE_PERFORMANCE_BIT_EXT,
      0)
  }

  /** Of the severities the messenger asks for, only verbose messages reach stdout;
      informational messages, the other stdout severity, are never requested. */
  lemma RequestedSeveritiesStream(severity: bv32)
    requires severity in Severities
    requires PopulateDebugMessengerCreateInfo().messageSeverity & severity != 0
    ensures ClassifySeverity(severity).stream == Stdout <==> severity == VK_DEBUG_UTILS_MESSAGE_SEVERITY_VERBOSE_BIT_EXT
  {
  }

  /** `CreateDebugUtilsMessengerEXT`. The entry point is looked up by name; `lookup` is
      what the lookup found (`None`: a null pointer). A found entry point decides the
      result; without one the extension is reported missing. */
  function CreateDebugUtilsMessenger(lookup: Option<MessengerCreateInfo -> VkResult>, info: MessengerCreateInfo): (r: VkResult)
    ensures lookup.None? ==> r == VK_ERROR_EXTENSION_NOT_PRESENT
    ensures lookup.Some? ==> r == lookup.value(info)
  {
    match lookup
    case Some(create) => create(info)
    case None => VK_ERROR_EXTENSION_NOT_PRESENT
  }

  /** `setup_debug_messenger`: the messenger is created with the populated create-info. */
  function SetupDebugMessenger(lookup: Option<MessengerCreateInfo -> VkResult>): (r: VkResult)
    ensures lookup.None? ==> r == VK_ERROR_EXTENSION_NOT_PRESENT
    ensures lookup.Some? ==> r == lookup.value(PopulateDebugMessengerCreateInfo())
  {
    CreateDebugUtilsMessenger(lookup, PopulateDebugMessengerCreateInfo())
  }

  /** A messenger can only be set up when its entry point exists, and then whatever the
      driver answers is passed on unchanged. */
  lemma MessengerNeedsEntryPoint(lookup: Option<MessengerCreateInfo -> VkResult>)
    ensures SetupDebugMessenger(lookup) == VK_SUCCESS ==> lookup.Some?
    ensures SetupDebugMessenger(Some((_: MessengerCreateInfo) => VK_SUCCESS)) == VK_SUCCESS
    ensures SetupDebugMessenger(None) != VK_SUCCESS
  {
  }
}
