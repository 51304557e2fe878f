# eznm option vocabulary in Dafny

`eznm` is a terminal wizard meant to build an nmap command line. The code in
`eznm.go` defines the wizard's option vocabulary. The wizard logic itself is
not there yet: `Update` and `View` have empty bodies. The vocabulary consists of:

- the scan techniques (`scanType`). Each one's `String()` returns its nmap flag (`-sS`, `-sT`, …).
- the output formats (`Format`). Each one's `String()` returns its nmap flag (`-oN`, `-oX`, …).
- the wizard's state record (`model`) and the defaults `initialModel` gives it.

This project models exactly that:

- `wrappers.dfy`: module `Wrappers`, the `Option` datatype. Here `None` stands for a Go panic or a nil error.
- `flag_table.dfy`: module `FlagTable`, generic facts about lookup tables whose entries are pairwise distinct.
- `scan_type.dfy`: module `ScanTypes`, the scan-technique datatype, its iota numbering and its flag table.
- `format.dfy`: module `Formats`, the same for output formats.
- `vocabulary.dfy`: module `Vocabulary`. No flag belongs to both tables.
- `config.dfy`: module `Config`. It holds the `model` record, the Go zero value of that record, and `initialModel`.

In Go, both enums are `int`s. `String()` indexes a fixed array with that int, so an out-of-range value
panics. In the model each enum is a datatype, so `ToFlag` is total by construction. `Lookup` keeps the
Go behaviour for an arbitrary `int`. It is proved to panic (`None`) exactly on the values that are not a
declared constant, and to agree with `ToFlag` on all the others. `FromFlag` reads each table backwards.
The round trip `FromFlag(ToFlag(x)) == Some(x)` is what proves each mapping injective.

`initialModel` as written does not compile. It applies `:=` to record fields (lines 130, 136, 139, 142 and
165), and line 154 ends in a stray comma. The model follows the evident intent, which is plain
assignment. `InitialModel` replays the source's assignments in order, starting from the zero record
(`var m model`).

## Data model

- `ScanTypes.ScanType` and `ScanTypes.Flags` are the `scanType` constants (eznm.go:30-41) and the flag array of its `String()` (eznm.go:45-53).
- `Formats.Format` and `Formats.Flags` are the `Format` constants (eznm.go:56-63) and the flag array of its `String()` (eznm.go:67-72).
- `Config.Model` is the `model` record (eznm.go:75-108). It has the same 24 fields in the same order. Each `textinput.Model` is a `Config.TextInput`, and the `error` field is an `Option<string>` in which `None` is nil.
- The Go `int` fields stay unbounded `int`s, because nothing in the code does arithmetic on them.

## Model

| member | source | states |
|---|---|---|
| ScanTypes.Ordinal | eznm.go:33-41 | each scan-technique constant has an iota value that is a valid index into the seven-entry flag array |
| ScanTypes.FromOrdinal | eznm.go:30-41 | an `int`-backed value names a declared scan technique exactly when it is in 0..6, and then names the constant with that iota value |
| ScanTypes.ToFlag | eznm.go:44-54 | `String()` maps TcpSyn, TcpConnect, TcpAck, TcpWindow, TcpMaimon, UdpScan and TcpNull to `-sS`, `-sT`, `-sA`, `-sW`, `-sM`, `-sU` and `-sN`; every result is three characters starting with `-s` |
| ScanTypes.Lookup | eznm.go:44-54 | indexing the flag array with an arbitrary `int` panics exactly outside the declared constants; otherwise it gives that constant's flag |
| ScanTypes.OrdinalRoundTrip | eznm.go:33-54 | the iota numbering is a bijection between the seven constants and the indices 0..6 of the flag array, and Go's int-indexed `String()` on a constant's number gives that constant's flag |
| ScanTypes.FromFlag | eznm.go:45-53 | a flag read back from the array names a scan type whose flag it is; a string outside the array names none |
| ScanTypes.FlagsDistinct | eznm.go:45-53 | the seven entries of the flag array are pairwise distinct |
| ScanTypes.FromFlagToFlag | eznm.go:45-53 | every scan type is recovered from its own flag |
| ScanTypes.ToFlagInjective | eznm.go:45-53 | two scan types have the same flag if and only if they are the same scan type |
| ScanTypes.FromFlagComplete | eznm.go:45-53 | a string names a scan type exactly when it is one of the seven flags |
| Formats.Ordinal | eznm.go:58-63 | each output-format constant has an iota value that is a valid index into the four-entry flag array |
| Formats.FromOrdinal | eznm.go:56-63 | an `int`-backed value names a declared output format exactly when it is in 0..3, and then names the constant with that iota value |
| Formats.ToFlag | eznm.go:66-73 | `String()` maps Normal, Xml, Script and Grepable to `-oN`, `-oX`, `-oS` and `-oG`; every result is three characters starting with `-o` |
| Formats.Lookup | eznm.go:66-73 | indexing the flag array with an arbitrary `int` panics exactly outside the declared constants; otherwise it gives that constant's flag |
| Formats.OrdinalRoundTrip | eznm.go:58-73 | the iota numbering is a bijection between the four constants and the indices 0..3 of the flag array, and Go's int-indexed `String()` on a constant's number gives that constant's flag |
| Formats.FromFlag | eznm.go:67-72 | a flag read back from the array names an output format whose flag it is; a string outside the array names none |
| Formats.FlagsDistinct | eznm.go:67-72 | the four entries of the flag array are pairwise distinct |
| Formats.FromFlagToFlag | eznm.go:67-72 | every output format is recovered from its own flag |
| Formats.ToFlagInjective | eznm.go:67-72 | two output formats have the same flag if and only if they are the same format |
| Formats.FromFlagComplete | eznm.go:67-72 | a string names an output format exactly when it is one of the four flags |
| Vocabulary.ScanAndFormatFlagsDisjoint | eznm.go:44-73 | no scan-technique flag equals any output-format flag |
| Vocabulary.AllFlagsDistinct | eznm.go:44-73 | the eleven flags of the two tables, taken together, are pairwise distinct |
| Config.BlankInput | eznm.go:125 | a freshly created text input is empty, has no placeholder, has limit 0 (no limit) and has no focus |
| Config.Template | eznm.go:125-127 | the shared template is a fresh text input with a 64-character limit |
| Config.Focus | eznm.go:131 | focusing an input sets its focus and leaves its text, placeholder and limit alone |
| Config.Zero | eznm.go:124 | the zero record has every boolean false, every integer 0, a nil error, every text input blank, and in each enum field the constant with iota value 0 |
| Config.InitialModel | eznm.go:123-172 | the default configuration: fastmode and versionDetection on, versionIntensity 3, TcpSyn and Normal, all other booleans off, verbosity and debug levels 0, no error; the five template fields are empty, 64-limited and carry their placeholders; only hostnames is focused; resume and cursor keep their zero values; the result meets the bounds of nmap's usage text (version intensity within 0..9, non-negative levels) and each template field respects its limit |
| Config.InitialModelFromZero | eznm.go:145-167 | the only defaults that change the zero record are the text fields, fastmode, versionDetection and versionIntensity; the remaining assignments of false, 0, nil, tcpSyn and normal restate Go zero values |

## Left out

- `Init`, `Update` and `View` (eznm.go:110-121). `Init` returns nil and the other two have empty bodies, so there is no event handling, page navigation or rendering to model.
- Command-line assembly and cross-field conflict rules. Nothing in the code builds a command line or checks options against each other.
- `main` (eznm.go:174-182). It runs the terminal program, prints the result and exits the process. All of that is I/O.
- The lipgloss styles, the submit-button strings, and the cursor, prompt and text styles (eznm.go:14-26, 126, 132-133). These are presentation only and live in a library outside this model.
- The internals of `textinput.Model`. Editing, blinking and enforcement of the character limit are library code that is not part of this model. A text input is reduced to four attributes: its text, its placeholder, its limit and its focus.
- Config.BlankInput: the model assumes that a fresh input from `textinput.New()` and the Go zero value agree on those four attributes (empty, no placeholder, limit 0, unfocused). This is an assumption about the library, which is not part of this model.
- Config.Focus: models only the focus flag that `Focus()` sets (eznm.go:131). The library call also focuses the cursor and returns a blink command; neither is modelled, since both belong to the library.
- Config.InitialModel: says nothing about `resume` except that it keeps the zero value from `var m model`. `initialModel` never assigns it.
- The nmap usage comment (eznm.go:184-225). It is used only to cross-check the two flag tables and the 0-9 range of the version intensity.
