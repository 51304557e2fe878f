/**
  The wizard's state record (`model` in the Go program) and the configuration
  `initialModel` builds. Go starts from the zero value of the record
  (`var m model`) and then assigns the defaults field by field; `InitialModel`
  follows the same steps in the same order.
 */
module Config {
  import opened Wrappers
  import ScanTypes
  import Formats

  /**
    A text input, reduced to the attributes the program sets: the typed text,
    the placeholder shown while it is empty, the character limit (0 is the
    unset limit of a fresh input) and whether it has focus.
   */
  datatype TextInput = TextInput(value: string, placeholder: string, charLimit: nat, focused: bool)

  /** The character limit every text field of the form receives. */
  const CharLimit: nat := 64

  /** The highest `--version-intensity` level nmap accepts (levels run from 0 to 9). */
  const MaxVersionIntensity: int := 9

  datatype Model = Model(
    cursor: int,
    // page 1: targets and ports
    hostnames: TextInput,
    eHostnames: TextInput,
    ports: TextInput,
    ePorts: TextInput,
    fastmode: bool,
    // page 2: host discovery
    listScan: bool,
    pingScan: bool,
    traceroute: bool,
    skipDiscovery: bool,
    // page 3: scan technique
    scanTechnique: ScanTypes.ScanType,
    // page 4: service and version detection
    versionDetection: bool,
    versionIntensity: int,
    // page 5: OS detection
    osDetection: bool,
    osScanLimit: bool,
    osScanGuess: bool,
    // page 6: output
    outputFormat: Formats.Format,
    verbosityLevel: int,
    debugLevel: int,
    showReasonPortState: bool,
    openPortsOnly: bool,
    resume: TextInput,
    outputFile: TextInput,
    // the error reported back to the user; None is Go's nil
    err: Option<string>)

  /** A fresh text input: empty, no placeholder, no limit, not focused. */
  function BlankInput(): (t: TextInput)
    ensures t.value == "" && t.placeholder == "" && t.charLimit == 0 && !t.focused
  {
    TextInput("", "", 0, false)
  }

  /** The shared template the form's fields are copied from: a fresh input limited to 64 characters. */
  function Template(): (t: TextInput)
    ensures t.charLimit == CharLimit
    ensures t.value == "" && t.placeholder == "" && !t.focused
  {
    BlankInput().(charLimit := CharLimit)
  }

  /** Giving an input focus changes nothing but its focus. */
  function Focus(t: TextInput): (r: TextInput)
    ensures r.focused
    ensures r.value == t.value && r.placeholder == t.placeholder && r.charLimit == t.charLimit
  {
    t.(focused := true)
  }

  /**
    The Go zero value of the record: booleans false, integers 0, error nil,
    text inputs blank, and each enum field holding the constant whose iota
    value is 0.
   */
  function Zero(): (m: Model)
    ensures ScanTypes.FromOrdinal(0) == Some(m.scanTechnique)
    ensures Formats.FromOrdinal(0) == Some(m.outputFormat)
    ensures m.cursor == 0 && m.versionIntensity == 0 && m.verbosityLevel == 0 && m.debugLevel == 0
    ensures !m.fastmode && !m.listScan && !m.pingScan && !m.traceroute && !m.skipDiscovery
    ensures !m.versionDetection && !m.osDetection && !m.osScanLimit && !m.osScanGuess
    ensures !m.showReasonPortState && !m.openPortsOnly
    ensures m.err.None?
    ensures m.hostnames == m.eHostnames == m.ports == m.ePorts == m.resume == m.outputFile == BlankInput()
  {
    var b := BlankInput();
    Model(0, b, b, b, b, false, false, false, false, false, ScanTypes.TcpSyn, false, 0,
          false, false, false, Formats.Normal, 0, 0, false, false, b, b, None)
  }

  /** The five text fields copied from the template, in declaration order. */
  function TemplateFields(m: Model): seq<TextInput>
  {
    [m.hostnames, m.eHostnames, m.ports, m.ePorts, m.outputFile]
  }

  /** A text input whose content respects its character limit; a limit of 0 means no limit. */
  predicate WithinLimit(t: TextInput)
  {
    t.charLimit == 0 || |t.value| <= t.charLimit
  }

  /**
    Bounds the default configuration meets: the version intensity is a level
    nmap's usage text accepts (0 to 9), the verbosity and debug levels are
    counts, and each template field carries the 64-character limit and
    respects it. The Go record itself declares and enforces none of these.
   */
  predicate Valid(m: Model)
  {
    && 0 <= m.versionIntensity <= MaxVersionIntensity
    && m.verbosityLevel >= 0
    && m.debugLevel >= 0
    && forall t :: t in TemplateFields(m) ==> t.charLimit == CharLimit && WithinLimit(t)
  }

  /** `initialModel`: the zero record with the template fields and defaults assigned in source order. */
  function InitialModel(): (m: Model)
    ensures Valid(m)
    // the configuration defaults
    ensures m.fastmode && m.versionDetection
    ensures m.versionIntensity == 3
    ensures m.scanTechnique == ScanTypes.TcpSyn && m.outputFormat == Formats.Normal
    ensures !m.listScan && !m.pingScan && !m.traceroute && !m.skipDiscovery
    ensures !m.osDetection && !m.osScanLimit && !m.osScanGuess
    ensures !m.showReasonPortState && !m.openPortsOnly
    ensures m.verbosityLevel == 0 && m.debugLevel == 0
    ensures m.err.None?
    // the text fields: all empty, each with its own placeholder, and only hostnames focused
    ensures forall t :: t in TemplateFields(m) ==> t.value == ""
    ensures m.hostnames.focused
    ensures !m.eHostnames.focused && !m.ports.focused && !m.ePorts.focused && !m.outputFile.focused
    ensures m.hostnames.placeholder == "Hostnames to scan"
    ensures m.eHostnames.placeholder == "Hostnames to exclude"
    ensures m.ports.placeholder == "Ports to scan"
    ensures m.ePorts.placeholder == "Ports to exclude"
    ensures m.outputFile.placeholder == "File to save the output"
    // never assigned, so left as declared
    ensures m.resume == Zero().resume && m.cursor == Zero().cursor
  {
    var m := Zero();
    var t := Template();
    // page 1
    var m := m.(hostnames := t);
    var m := m.(hostnames := Focus(m.hostnames));
    var m := m.(hostnames := m.hostnames.(placeholder := "Hostnames to scan"));
    var m := m.(eHostnames := t);
    var m := m.(eHostnames := m.eHostnames.(placeholder := "Hostnames to exclude"));
    var m := m.(ports := t);
    var m := m.(ports := m.ports.(placeholder := "Ports to scan"));
    var m := m.(ePorts := t);
    var m := m.(ePorts := m.ePorts.(placeholder := "Ports to exclude"));
    var m := m.(fastmode := true, listScan := false, pingScan := false,
                traceroute := false, skipDiscovery := false);
    // page 3
    var m := m.(scanTechnique := ScanTypes.TcpSyn);
    // page 4
    var m := m.(versionDetection := true, versionIntensity := 3);
    // page 5
    var m := m.(osDetection := false, osScanLimit := false, osScanGuess := false);
    // page 6
    var m := m.(outputFormat := Formats.Normal, verbosityLevel := 0, debugLevel := 0,
                showReasonPortState := false, openPortsOnly := false);
    var m := m.(outputFile := t);
    var m := m.(outputFile := m.outputFile.(placeholder := "File to save the output"));
    m.(err := None)
  }

  /**
    Of all the explicit assignments in `initialModel`, only the text fields,
    fast mode, version detection and the version intensity change the zero
    record: the other defaults (false, 0, nil and the iota-0 enum constants)
    are the Go zero values already.
   */
  lemma InitialModelFromZero()
    ensures InitialModel() == Zero().(
      hostnames := Focus(Template()).(placeholder := "Hostnames to scan"),
      eHostnames := Template().(placeholder := "Hostnames to exclude"),
      ports := Template().(placeholder := "Ports to scan"),
      ePorts := Template().(placeholder := "Ports to exclude"),
      outputFile := Template().(placeholder := "File to save the output"),
      fastmode := true,
      versionDetection := true,
      versionIntensity := 3)
  {
  }
}
