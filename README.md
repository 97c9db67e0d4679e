# WinBoat core, modelled in Dafny

WinBoat runs Windows in a Docker container and offers its applications on the
Linux desktop. This project models the parts of its renderer that decide things,
and proves properties about them:

- **USB pass-through manager** (`Usb`, usbmanager.dfy). This covers:
  - device identities: four-digit hex ids, cache keys and the machine-side `vid:pid` ids;
  - the device-string cache and the MTP cache;
  - the saved pass-through list;
  - the attach, detach and guest-online handlers, which bring the virtual machine's devices in line with that list over QMP.
- **usb.ids reader** (`UsbIds`, usbids.dfy): the line-by-line parser of the USB id database.
- **lsusb scraper** (`Lsusb`, lsusb.dfy): it reads the manufacturer and product strings out of a verbose `lsusb` listing. It is modelled twice: once as written, and once with white space that stays on its line.
- **QMP session** (`Qmp`, qmp.dfy). This covers:
  - the closed command set and its argument table;
  - the message written for each command, with its decoding back;
  - the greeting check of `createConnection`;
  - how a reply is paired with a command;
  - `isAlive`.
- **Host prerequisites** (`Specs`, specs.dfy): the `Specs` record, the threshold predicate, and how each flag is read off command output and `/proc` files.
- **Message bus** (`Bus`, bus.dfy): one waiting promise per channel.
- **Installer** (`Install`, install.dfy). This covers:
  - the state machine;
  - the Compose service written from the user's configuration;
  - the status line read from the container's page;
  - the fixed order of the states an installation reports.
- **Supporting modules**: `Text` (trim, substring search, radix digits, split on a separator), `Json` (parsed JSON values and the `in` operator) and `Wrappers` (Option and Result).

The outside world becomes inputs:
- usb.ids is the file's content.
- The device list is a sequence of devices.
- `lsusb -v -d vid:pid` is the listing this host would print for that key, or none when the command fails.
- The QMP socket is a queue of parsed chunks, plus a closed flag.
- The guest's online flag is a field.
- Every shell command of the prerequisite probe goes through one runner function.
- The installer's file system, Docker and HTTP answers form a `World` record.
- The 2-second timeout of `isAlive` is a flag saying whether the reply came too late.

Each mutable object of the source is a class with the fields its methods update:
- `Usb.UsbManager`;
- `Qmp.QmpSession`;
- `Bus.MessageBus`;
- `Install.InstallManager`.

Loops are methods with invariants. These are proved against a function that specifies them:
- the usb.ids reader;
- the FreeRDP alias loop;
- the preinstall and health polling loops.

The bulk pass-through loops (removing every entry, and attaching every listed device when the guest comes online) have no single function to equal. They are proved against predicates on the log of QMP requests they send and on the MTP state:
- `AllAbout`, `PresentThenRemoved` and `AllQueried` for removal;
- `OnlineLog`, `AbsentThenAdded` and `MtpHistory` for the guest-online loop.

Each loop step extends these predicates by a step lemma.

## Model

| member | source | states |
|---|---|---|
| Text.Trim | src/renderer/lib/usbmanager.ts:423 | the result is trimmed, no longer than the input, and empty exactly when the input is all white space |
| Text.TrimSlice | src/renderer/lib/usbmanager.ts:423 | the result is the slice of the input between its leading and its trailing white space |
| Text.ContainsIff | src/renderer/lib/specs.ts:58 | `includes` holds exactly when the pattern occurs at some index |
| Text.FromToRadix | src/renderer/lib/usbmanager.ts:321-322 | reading `toString(base)` back gives the number |
| Text.PaddedDigits | src/renderer/lib/usbmanager.ts:321-326 | `toString(16).padStart(4, "0")` of an id below 16^4 is exactly four hex digits that read back to the id |
| Text.PaddedDigitsInjective | src/renderer/lib/usbmanager.ts:321-326 | two ids with the same padded hex text are equal |
| Text.Decimal | src/renderer/lib/install.ts:129-131 | the decimal text of a number is all digits and reads back to the number |
| Text.SplitOn | src/renderer/lib/usbmanager.ts:409 | at least one piece, and no piece contains the separator |
| Text.SplitJoin | src/renderer/lib/usbmanager.ts:409 | joining the pieces with the separator gives the content back |
| Text.SplitCount | src/renderer/lib/usbmanager.ts:409 | there is one piece more than there are separators |
| Json.HasProperty | src/renderer/lib/qmp.ts:128 | `key in v` is a boolean for objects (membership among its own keys) and arrays, and throws for every other value |
| Json.ArraysLackNamedKeys | src/renderer/lib/qmp.ts:196 | `"QMP"` and `"return"`, the keys the QMP code tests with `in`, are never properties of an array |
| Qmp.CommandNamed | src/renderer/lib/qmp.ts:59-61 | a name maps to the command with that wire name, and to none exactly when no command has it |
| Qmp.MessageJson | src/renderer/lib/qmp.ts:154-157 | the message always has `execute` with the wire name, has `arguments` exactly when an argument is given, and has no other key |
| Qmp.ArgumentRoundTrip | src/renderer/lib/qmp.ts:154-157 | an argument's JSON decodes back to the argument |
| Qmp.MessageRoundTrip | src/renderer/lib/qmp.ts:154-160 | every message written decodes back to the command and argument it came from |
| Qmp.CheckGreeting | src/renderer/lib/qmp.ts:124-137 | the greeting is accepted exactly when it parses to an object with a `QMP` key; `null` or another primitive fails as `in` on a non-object (a `TypeError`); an array, or an object without `QMP`, is an invalid response; a parse failure is rejected with the parse error |
| Qmp.ReplyFor | src/renderer/lib/qmp.ts:159-175 | a closed socket rejects the write; otherwise the next chunk settles the command, resolving with its value when it parses; with no chunk the promise never settles |
| Qmp.AliveFromReply | src/renderer/lib/qmp.ts:195-205 | alive exactly when the reply resolves with an object or an array |
| Qmp.ErrorEnvelopeIsAlive | src/renderer/lib/qmp.ts:195-198 | an `{"error": …}` reply still counts as alive, because the `assert` used only warns |
| Qmp.QmpSession.constructor | src/renderer/lib/qmp.ts:107-109 | a new session is open, with nothing sent and no listener left waiting |
| Qmp.QmpSession.ExecuteCommand | src/renderer/lib/qmp.ts:153-176 | the reply is `ReplyFor` the state before the call. An open socket records the message and consumes one chunk. A call that waits, or whose write fails, leaves one more `data` listener behind |
| Qmp.QmpSession.IsAlive | src/renderer/lib/qmp.ts:184-207 | alive exactly when no timeout came and the reply is alive; a closed socket sends nothing; otherwise `query-status` is sent |
| Qmp.QmpSession.Arrive | src/renderer/lib/qmp.ts:165-173 | an arriving chunk is taken by every listener left behind, which all fire and go away |
| Qmp.CreateConnection | src/renderer/lib/qmp.ts:120-141 | a failed connect is an uncaught error that never settles the promise, since no error listener is attached before the connection; after it, an `error` before the greeting rejects with the socket error; connected exactly when neither happens and the first chunk is a valid greeting, with the chunks after it as the session's inbound queue; a bad greeting rejects and says why; no chunk yet means still waiting |
| Bus.SendDelivers | src/renderer/utils/bus.ts:10-16 | a send with a waiter removes the waiter and resolves exactly that promise with the data |
| Bus.SendWithoutWaiter | src/renderer/utils/bus.ts:11-12 | a send without a waiter changes nothing; the data is dropped |
| Bus.SecondSendIsNoOp | src/renderer/utils/bus.ts:10-16 | a second send on a channel after the first one is a no-op |
| Bus.OtherChannelsUntouched | src/renderer/utils/bus.ts:10-22 | neither call changes another channel's entry |
| Bus.WaitReplaces | src/renderer/utils/bus.ts:18-22 | `waitFor` puts the new promise in the slot and the old one stops waiting |
| Bus.SendKeepsValid | src/renderer/utils/bus.ts:10-16 | a send keeps every promise waiting on at most one channel and resolved at most once |
| Bus.RunKeepsValid | src/renderer/utils/bus.ts:3-23 | any sequence of sends and waits keeps that invariant, so no promise is resolved twice |
| Bus.AbandonedStaysAbandoned | src/renderer/utils/bus.ts:10-22 | a promise that is neither waiting nor resolved stays so under any calls |
| Bus.ReplacedNeverResolves | src/renderer/utils/bus.ts:18-22 | a promise pushed out by a later `waitFor` on its channel never resolves |
| Bus.MessageBus.constructor | src/renderer/utils/bus.ts:6-8 | the bus starts empty and valid |
| Bus.MessageBus.Send | src/renderer/utils/bus.ts:10-16 | the new state is `Sent` of the old one, and validity is kept |
| Bus.MessageBus.WaitFor | src/renderer/utils/bus.ts:18-22 | returns a fresh promise; the new state is `Waited` of the old one, and validity is kept |
| Specs.DefaultSpecsFail | src/renderer/lib/specs.ts:19-29 | the default record fails the prerequisites |
| Specs.PrerequisitesMonotone | src/renderer/lib/specs.ts:7-17 | a host with at least the flags and figures of a passing host passes too |
| Specs.ThresholdsAreExact | src/renderer/lib/specs.ts:7-17 | the minimums are exactly 4 GB of memory, 2 threads and 32 GB of disk; each flag is required |
| Specs.KvmEnabled | src/renderer/lib/specs.ts:56-61 | on exactly when cpuinfo is readable, contains `vmx` or `svm`, and `/dev/kvm` exists |
| Specs.ModuleLoaded | src/renderer/lib/specs.ts:93-103 | on exactly when the grep succeeds and prints something other than white space |
| Specs.FirstVersionFrom | src/renderer/lib/specs.ts:73 | there is no result exactly when no index starts a `v<d>.<d>.<d>` match; otherwise the result is the major number of a match |
| Specs.FirstVersionIsLeftmost | src/renderer/lib/specs.ts:73 | the search returns the major number of the leftmost match |
| Specs.ComposeInstalled | src/renderer/lib/specs.ts:68-83 | on exactly when the output is non-empty and the leftmost version match has a major number of at least 2 |
| Specs.ComposeVersionRead | src/renderer/lib/specs.ts:72-76 | on a line such as `Docker Compose version v2.35.1`, the major number read is the first digit group, and the flag holds exactly when it is at least 2 |
| Specs.NoVersionNoCompose | src/renderer/lib/specs.ts:77-79 | output without a version match leaves the flag off |
| Specs.CurrentPluginAccepted | src/renderer/lib/specs.ts:72 | the sample output `Docker Compose version v2.35.1` passes |
| Specs.FreeRdpFoundIff | src/renderer/lib/specs.ts:85-91 | on exactly when some alias prints something and no earlier alias is rejected; the loop then runs no command after that alias |
| Specs.DetectFreeRdp | src/renderer/lib/specs.ts:86-91 | the loop computes the flag and the number of commands run |
| Specs.GetSpecs | src/renderer/lib/specs.ts:31-107 | each field is its probe's reading, or the default when the probe fails |
| Specs.ProbeMachine | src/renderer/lib/specs.ts:32-61 | threads, memory, disk and KVM come from the machine; all else stays default |
| Specs.ProbeTools | src/renderer/lib/specs.ts:63-103 | the five command-based flags come from their commands; the figures are kept |
| UsbIds.MatchIdLine | src/renderer/lib/usbmanager.ts:419-423 | matches exactly when the regular expression does; gives the lower-cased id and the trimmed rest of the line |
| UsbIds.FirstCaptureStartIff | src/renderer/lib/usbmanager.ts:419 | the capture `(.+)` can start somewhere exactly when it can start at the least candidate start, and it is the same trimmed text from there |
| UsbIds.LowerIdWord | src/renderer/lib/usbmanager.ts:421 | a lower-cased id is a lower-case hex id |
| UsbIds.Step | src/renderer/lib/usbmanager.ts:415-433 | one line keeps the database consistent, and only a vendor line changes the current vendor |
| UsbIds.ParseLines | src/renderer/lib/usbmanager.ts:411-436 | the database built is consistent: lower-case ids and trimmed names |
| UsbIds.ReadDatabase | src/renderer/lib/usbmanager.ts:408-436 | the loop builds the database of the content's lines |
| UsbIds.ReadLine | src/renderer/lib/usbmanager.ts:414-432 | one turn of the loop moves the reader's state as `Step` does for that line: comments and blank lines change nothing, a vendor id line becomes the current vendor with no products yet, and a product id line is added under the current vendor |
| UsbIds.ParseSnoc | src/renderer/lib/usbmanager.ts:414 | reading one more line is one more step |
| UsbIds.SkippedLineIgnored | src/renderer/lib/usbmanager.ts:415 | comment and blank lines can be removed anywhere without changing the result |
| UsbIds.NothingBeforeFirstVendor | src/renderer/lib/usbmanager.ts:427-432 | without a vendor line the database stays empty, so product lines before any vendor are dropped |
| UsbIds.IdLineRead | src/renderer/lib/usbmanager.ts:419-423 | `id<space>name` reads as the lower-cased id and the name |
| UsbIds.VendorLineRead | src/renderer/lib/usbmanager.ts:417-426 | a vendor line replaces the vendor's entry with no devices and makes it current |
| UsbIds.ProductLineRead | src/renderer/lib/usbmanager.ts:427-432 | a tab-indented line adds the product to the current vendor |
| UsbIds.DoubleIndentIgnored | src/renderer/lib/usbmanager.ts:427 | lines indented by two tabs change nothing |
| UsbIds.NonMatchingLineIgnored | src/renderer/lib/usbmanager.ts:417-432 | a line that is neither skipped nor matched by the id pattern, at its own indentation, leaves the database and the current vendor as they were |
| UsbIds.ProductWithoutVendorIgnored | src/renderer/lib/usbmanager.ts:427-432 | a tab-indented line with no current vendor changes nothing |
| UsbIds.InitialKeptBy | src/renderer/lib/usbmanager.ts:415-432 | from the empty database, every line that is not a vendor line leaves it empty |
| Lsusb.DeviceStringsFromLsusb | src/renderer/lib/usbmanager.ts:445-467 | a failing `lsusb` gives no strings; every string found is trimmed; it runs the corrected patterns of the Findings table |
| Lsusb.OneLineAtATime | src/renderer/lib/usbmanager.ts:454-458 | with white space kept on its line, a descriptor reads the same from the listing as from its own line alone |
| Lsusb.LineCaptures | src/renderer/lib/usbmanager.ts:454-455 | one capture per line, each what the corrected pattern captures on that line alone |
| Lsusb.FirstSome | src/renderer/lib/usbmanager.ts:454-455 | none exactly when no capture is present; otherwise the index of a present capture with none before it |
| Lsusb.FirstDescriptor | src/renderer/lib/usbmanager.ts:454-459 | `null` exactly when no line matches the corrected pattern on its own |
| Lsusb.ScanLines | src/renderer/lib/usbmanager.ts:454-455 | over lines joined by line breaks, the multi-line search finds the capture of the first line that matches by itself, and nothing when none does |
| Lsusb.FieldOfLines | src/renderer/lib/usbmanager.ts:454-459 | a field read from the joined listing is the first descriptor of its lines |
| Lsusb.DeviceStringsReadLineByLine | src/renderer/lib/usbmanager.ts:445-467 | for a whole listing, the manufacturer and the product are each the trimmed string of the first line that is a descriptor line for them, and `null` exactly when no line is |
| Lsusb.DescriptorLineRead | src/renderer/lib/usbmanager.ts:454-459 | a line `<indent>iProduct <n> <value>` gives `value` |
| Lsusb.DescriptorLineShape | src/renderer/lib/usbmanager.ts:454-459 | conversely, a line the corrected pattern matches is indentation, the keyword, blanks, a string index, blanks and the captured string; the one exception is a line with only blanks after the index, whose capture trims to empty |
| Lsusb.ManufacturerTakenFromNextLine | src/renderer/lib/usbmanager.ts:454-455 | on `iManufacturer 0\niProduct 2 X`, the pattern as written reads the whole next line as the manufacturer; the corrected one finds no manufacturer and product `X` |
| Usb.VidPidHexOf | src/renderer/lib/usbmanager.ts:318-330 | both ids become four hex digits that read back to the ids, for a live device and a list entry alike |
| Usb.SameIdsSameHex | src/renderer/lib/usbmanager.ts:318-330 | a device and an entry with the same ids get the same hex text |
| Usb.CacheKeyInjective | src/renderer/lib/usbmanager.ts:135 | two devices share a cache key only when they share both ids |
| Usb.VmIdInjective | src/renderer/lib/usbmanager.ts:362 | the decimal `vid:pid` id names one pair of ids |
| Usb.BusPathShape | src/renderer/lib/usbmanager.ts:353 | the device node is `/dev/bus/usb/` with the bus and the address as three digits each |
| Usb.OrNull | src/renderer/lib/usbmanager.ts:165 | `s \|\| null` keeps exactly the non-empty strings |
| Usb.LabelNamesDevice | src/renderer/lib/usbmanager.ts:138 | two equal labels are for the same ids |
| Usb.LabelShowsKey | src/renderer/lib/usbmanager.ts:138 | the label carries the cache key between its bracket and its tenth character |
| Usb.EntryKeepsLabel | src/renderer/lib/usbmanager.ts:176-181 | an entry built from a device and its cached strings shows the label the device had |
| Usb.Resolve | src/renderer/lib/usbmanager.ts:141-163 | the database comes first; `lsusb` fills a missing or empty product, and a missing or empty vendor name when it has a manufacturer; it runs once per missing name; the `lsusb` strings are those of the corrected scraper |
| Usb.Stored | src/renderer/lib/usbmanager.ts:165 | the cache keeps each name when it is non-empty and `null` otherwise |
| Usb.MissLabelDiffersIffEmptyVendor | src/renderer/lib/usbmanager.ts:165-168 | the label of a miss, as written, differs from the label of every later hit exactly when the vendor record's name is empty |
| Usb.EmptyVendorLabelChanges | src/renderer/lib/usbmanager.ts:165-168 | a usb.ids vendor with an empty name, and no manufacturer from `lsusb`, gives a first label that later labels do not repeat |
| Usb.WithoutIds | src/renderer/lib/usbmanager.ts:235-237 | the filter keeps exactly the entries without the ids |
| Usb.WithoutIdsAppend | src/renderer/lib/usbmanager.ts:235-237 | the filter distributes over concatenation, so order is kept |
| Usb.WithoutAbsentIds | src/renderer/lib/usbmanager.ts:235-237 | removing ids that are not listed changes nothing |
| Usb.WithoutIdsRemoves | src/renderer/lib/usbmanager.ts:235-237 | afterwards no entry has the ids |
| Usb.WithoutIdsKeepsNoDup | src/renderer/lib/usbmanager.ts:235-237 | removal keeps the list free of duplicate ids |
| Usb.AppendKeepsNoDup | src/renderer/lib/usbmanager.ts:213-220 | appending an entry whose ids are not listed keeps the list free of duplicates |
| Usb.FindDevice | src/renderer/lib/usbmanager.ts:119 | finds a device exactly when one has the ids, and the one found has them |
| Usb.QtreeVerdict | src/renderer/lib/usbmanager.ts:332-346 | no verdict exactly while the reply is pending; `true` only for an object with `return`; a string `return` gives whether it contains the marker |
| Usb.QtreeQueryFits | src/renderer/lib/usbmanager.ts:335 | the `info qtree` query is a valid `human-monitor-command` argument |
| Usb.AddArgument | src/renderer/lib/usbmanager.ts:360-366 | the `device_add` argument fits the command's property table |
| Usb.DelArgument | src/renderer/lib/usbmanager.ts:380 | the `device_del` argument fits the command's property table |
| Usb.OnlineLogExtends | src/renderer/lib/usbmanager.ts:116-122 | one more entry's requests keep the online log well formed and mark the entry queried |
| Usb.AbsentThenAddedExtends | src/renderer/lib/usbmanager.ts:223-225 | appending an attach step that did not throw keeps every "absent" answer followed by a `device_add` for the same id |
| Usb.PresentThenRemovedExtends | src/renderer/lib/usbmanager.ts:240-242 | appending a detach step keeps every "present" answer followed by a `device_del` for the same id |
| Usb.OnlineStep | src/renderer/lib/usbmanager.ts:116-122 | one loop step keeps the log well formed and, when it sent something, marks the entry's id as queried; when it did not throw, every "absent" answer is still followed by a `device_add` |
| Usb.DelStepAbout | src/renderer/lib/usbmanager.ts:273-276 | each removal's requests are about a listed device, every "present" answer is followed by a `device_del`, and a removal that sent something extends the queried prefix of the list by its entry |
| Usb.QueriedStep | src/renderer/lib/usbmanager.ts:273-276 | a step opening with the query for the next entry extends the queried prefix of the list by that entry |
| Usb.ProbedCache | src/renderer/lib/usbmanager.ts:302-311 | the MTP probe keeps every cached answer, adds only the answer the `lsusb` listing gives, and has an answer for the key exactly when one was cached or `lsusb` succeeded |
| Usb.MtpStep | src/renderer/lib/usbmanager.ts:116-122 | one entry of the guest-online loop keeps the MTP history: old answers kept, new ones from `lsusb`, only MTP nodes freed, every `device_add` for an MTP device with its node freed |
| Usb.StepMtpFacts | src/renderer/lib/usbmanager.ts:353-357 | one attach step keeps and extends the MTP cache from `lsusb`, frees at most the device's own node and only for an MTP device, and its only `device_add` is for that device, with its answer cached and its node freed when it is an MTP device |
| Usb.HistoryStep | src/renderer/lib/usbmanager.ts:116-122 | such a step appended to a run extends the run's MTP history |
| Usb.AnswersCompose | src/renderer/lib/usbmanager.ts:302-311 | keeping answers and taking new ones from `lsusb` composes over two steps |
| Usb.FreedStep | src/renderer/lib/usbmanager.ts:355-357 | freeing the node of a device the cache calls MTP keeps every freed node an MTP node |
| Usb.AddsStep | src/renderer/lib/usbmanager.ts:355-366 | a step whose `device_add` comes with the device's answer cached and its node freed for an MTP device keeps every `device_add` matched by its freed node |
| Usb.MtpNodesGrow | src/renderer/lib/usbmanager.ts:302-311 | kept answers keep their devices' nodes among the MTP nodes |
| Usb.UsbManager.constructor | src/renderer/lib/usbmanager.ts:49-66 | reads the database from the content, takes the devices, caches every device's strings and takes the saved list |
| Usb.UsbManager.PrecacheDevices | src/renderer/lib/usbmanager.ts:56-58 | afterwards every current device's strings are cached |
| Usb.UsbManager.StringifyDevice | src/renderer/lib/usbmanager.ts:131-169 | the key is cached afterwards and the label is the one the stored strings give; a hit changes nothing; a miss stores `Resolve` of the database and listing and counts its `lsusb` runs |
| Usb.UsbManager.ToEntry | src/renderer/lib/usbmanager.ts:188-203 | succeeds exactly when the strings are cached, with the device's ids and label; fails otherwise, naming the key |
| Usb.UsbManager.InPassthroughList | src/renderer/lib/usbmanager.ts:252-255 | fails like the conversion; otherwise says whether the ids are listed |
| Usb.UsbManager.IsMtpDevice | src/renderer/lib/usbmanager.ts:285-312 | a cached answer is returned unchanged; a list entry not attached is `false` and is not cached; otherwise `lsusb` runs once, and the answer is whether the listing contains `MTP` and is cached, or the call throws when `lsusb` fails |
| Usb.UsbManager.CheckIfDeviceExists | src/renderer/lib/usbmanager.ts:332-346 | the verdict is `QtreeVerdict` of the reply; without a connection it is `false`; an answered query is logged |
| Usb.UsbManager.AddDevice | src/renderer/lib/usbmanager.ts:349-375 | throws exactly when the MTP probe must run `lsusb` and that fails; otherwise frees the node of an MTP device, then sends `device_add` with the decimal id and node; in every case the probe's answer is cached unless `lsusb` failed (`Probed`), and `lsusb` ran once exactly when no answer was cached |
| Usb.UsbManager.RequestAdd | src/renderer/lib/usbmanager.ts:359-373 | sends `device_add` when connected, and waits forever only when no reply comes |
| Usb.UsbManager.RemoveDevice | src/renderer/lib/usbmanager.ts:377-388 | sends `device_del` for the id when connected and never throws |
| Usb.UsbManager.AttachIfAbsent | src/renderer/lib/usbmanager.ts:223-225 | sends nothing without a connection; otherwise queries the guest, whose answer is `QtreeVerdict` of the reply, and a run that completes always sent that query; after "present" nothing more is sent; after "absent" `device_add` follows, unless the MTP probe throws first. The probe runs exactly when there is no connection or the answer was "absent": then its answer is cached unless `lsusb` failed, the node of an MTP device is freed, and `lsusb` ran once exactly when no answer was cached; otherwise the MTP cache, the freed nodes and the `lsusb` count are unchanged |
| Usb.UsbManager.DetachIfPresent | src/renderer/lib/usbmanager.ts:240-242 | sends nothing without a connection; otherwise queries the guest, whose answer is `QtreeVerdict` of the reply, and a run that completes always sent that query (a reply that never comes does not complete); after "absent" nothing more is sent; after "present" `device_del` follows; no node is freed and `lsusb` does not run |
| Usb.UsbManager.AddToPassthroughList | src/renderer/lib/usbmanager.ts:209-228 | refuses an uncached device and an already listed one; otherwise appends the entry (no duplicates arise) and, when online and connected, queries the guest with the reply's verdict and sends `device_add` exactly after an "absent" answer, unless the MTP probe throws. When the entry is appended, the guest is online and the probe is reached, the probe's answer is cached, the node of an MTP device is freed and `lsusb` runs once for an uncached answer; in every other case the MTP cache, the freed nodes and the `lsusb` count are unchanged |
| Usb.UsbManager.RemoveFromPassthroughList | src/renderer/lib/usbmanager.ts:234-245 | the list loses exactly the entries with the ids, in order; when online and connected, the guest is queried with the reply's verdict, a run that completes always sent that query, and `device_del` is sent exactly after a "present" answer; the MTP cache, the freed nodes and the `lsusb` count are unchanged |
| Usb.UsbManager.RemoveAllPassthroughDevices | src/renderer/lib/usbmanager.ts:273-279 | every request is about a listed device, and every "present" answer is followed by a `device_del`; when the guest is online, connected and the loop completes, every listed entry's id was queried, so each one the guest had got its `device_del`; when the loop finishes, the list is empty; the MTP cache, the freed nodes and the `lsusb` count are unchanged |
| Usb.UsbManager.OnAttach | src/renderer/lib/usbmanager.ts:72-83 | the device list is refreshed and the strings cached; nothing is sent unless the guest is online and the device listed; then the guest is queried with the reply's verdict, and `device_add` follows exactly an "absent" answer unless the MTP probe throws. The probe runs when the device is listed, the guest online and the answer "absent" (or there is no connection): its answer is cached and the node of an MTP device freed; otherwise the MTP cache and the freed nodes are unchanged. `lsusb` runs as often as the string lookup needs plus once for an uncached probe |
| Usb.UsbManager.OnDetach | src/renderer/lib/usbmanager.ts:85-102 | the device list is refreshed, the MTP answer forgotten and the strings cached; when online and listed, the guest is queried with the reply's verdict, a run that completes always sent that query, and `device_del` follows exactly a "present" answer; no node is freed, and `lsusb` runs only as often as the string lookup needs |
| Usb.UsbManager.OnOnlineChanged | src/renderer/lib/usbmanager.ts:108-124 | going offline sends nothing; going online queries every listed, attached device, never removes anything, and when it completes (no step throws and no reply is missing), every "absent" answer is followed by a `device_add` for the same id. Over the run the MTP cache keeps its old answers, takes new ones only from `lsusb`, only nodes of MTP devices are freed, and every `device_add` for an MTP device had its node freed |
| Install.StateNamesDistinct | src/renderer/lib/install.ts:63-72 | no two states share a displayed name |
| Install.StatesOfChanges | src/renderer/lib/install.ts:94-98 | reading the states back from those events gives the states |
| Install.NoStatesAmongMessages | src/renderer/lib/install.ts:100-105 | status-line events carry no state |
| Install.StatesOfAppend | src/renderer/lib/install.ts:94-98 | the states of two runs of events are the states of each, in order |
| Install.Announce | src/renderer/lib/install.ts:100-105 | a message equal to the current one emits nothing; a different one emits exactly that message |
| Install.EnvironmentSettings | src/renderer/lib/install.ts:129-135 | the seven settings carry the configuration, with sizes as decimal numbers plus `G` that read back to the configured sizes; every other variable keeps its template value |
| Install.FirstStorage | src/renderer/lib/install.ts:141 | `findIndex` gives the first volume that mounts `/storage`, or none exactly when no volume does |
| Install.StorageReplacedInPlace | src/renderer/lib/install.ts:137-144 | with a storage volume, it is pointed at the install folder in place, the ISO is appended last, and nothing else moves |
| Install.StorageAppended | src/renderer/lib/install.ts:137-147 | without one, the storage volume comes after the ISO, at the end |
| Install.TemplateMountsStorage | src/renderer/lib/install.ts:52 | the template's `data:/storage` volume mounts `/storage` |
| Install.ServiceFromTemplate | src/renderer/lib/install.ts:17-62 | the written service is the template with storage at the install folder in first place, the ISO last when one is chosen, and the settings applied |
| Install.NextLtSpec | src/renderer/lib/install.ts:258 | the scan stops at the first `<` or at the end |
| Install.FirstTagFromSpec | src/renderer/lib/install.ts:258 | the search finds the leftmost `>…<` with some text between, and none exactly when there is none |
| Install.PreinstallTextShown | src/renderer/lib/install.ts:257-259 | the status line is the body itself, or the non-empty, `<`-free text of some `>text<` in the body |
| Install.TaggedMessageRead | src/renderer/lib/install.ts:258-259 | `<p>Downloading…</p>`-like pages show their text |
| Install.PlainMessageKept | src/renderer/lib/install.ts:259 | a body with no `<` is shown as it is |
| Install.PreinstallPage | src/renderer/lib/install.ts:257-260 | a page announces its status line if new, and the loop goes on |
| Install.PreinstallStop | src/renderer/lib/install.ts:253-269 | a 404, or an error mentioning 404, ends the loop successfully; any other error fails it; nothing more is published |
| Install.PreinstallMessagesChange | src/renderer/lib/install.ts:250-273 | successive published status lines always differ, and the last one is the current message |
| Install.FirstHealthy | src/renderer/lib/install.ts:282-289 | the first 200 answer, and none exactly when no answer is 200 |
| Install.InstallStateOrder | src/renderer/lib/install.ts:307-316 | a successful run reports the states in their fixed order, then `Completed` again; a failed run reports a prefix of that order and then `Install Error`; a run still polling is inside the monitoring steps |
| Install.PreparedOrder | src/renderer/lib/install.ts:309-311 | a failing preparation step reports the states up to it and then `Install Error` |
| Install.WatchedOrder | src/renderer/lib/install.ts:312-314 | the monitoring steps report their states in order, whatever status lines appear between them |
| Install.MonitoredStates | src/renderer/lib/install.ts:247 | status lines between the state changes do not disturb their order |
| Install.InstallSucceedsIff | src/renderer/lib/install.ts:307-316 | an install succeeds exactly when every preparation step works, the preinstall phase ends well (a 404 answer, or an error that mentions 404), and some health answer is 200 |
| Install.ThenMonitored | src/renderer/lib/install.ts:311-312 | the prepared events followed by the monitoring events are the whole run's events |
| Install.PollPage | src/renderer/lib/install.ts:257-260 | publishing a page's status line keeps the polling loop's invariant |
| Install.PollEnd | src/renderer/lib/install.ts:253-269 | when the pages stop, everything has been published and the outcome is decided by the last answer |
| Install.InstallManager.constructor | src/renderer/lib/install.ts:87-92 | starts idle with an empty message, nothing emitted and no Compose file |
| Install.InstallManager.ChangeState | src/renderer/lib/install.ts:94-98 | sets the state and emits it |
| Install.InstallManager.SetPreinstallMsg | src/renderer/lib/install.ts:100-105 | sets the message and emits it only when it changed |
| Install.InstallManager.CreateComposeFile | src/renderer/lib/install.ts:111-155 | reports its state and writes the configured service |
| Install.InstallManager.CreateOemAssets | src/renderer/lib/install.ts:157-221 | with the OEM directory in place, succeeds exactly when the guest server is found and copied; otherwise it reports `Install Error` |
| Install.InstallManager.StartContainer | src/renderer/lib/install.ts:223-241 | succeeds exactly when `docker compose up` does; otherwise it reports `Install Error` |
| Install.InstallManager.MonitorContainerPreinstall | src/renderer/lib/install.ts:243-274 | reports its state, then publishes what `Preinstall` gives for the answers; a failure reports `Install Error` |
| Install.InstallManager.PollPreinstall | src/renderer/lib/install.ts:250-273 | the polling loop publishes exactly `Preinstall` of the answers and ends with its outcome |
| Install.InstallManager.MonitorApiHealth | src/renderer/lib/install.ts:276-304 | healthy exactly when some answer is 200, after as many attempts as answers before it; then `Completed` is reported |
| Install.InstallManager.Prepare | src/renderer/lib/install.ts:309-311 | the three preparation steps report `PreparedEvents` and succeed exactly when all do |
| Install.InstallManager.Watch | src/renderer/lib/install.ts:312-314 | the two monitoring steps report `Watched` of the page and health answers |
| Install.InstallManager.Install | src/renderer/lib/install.ts:307-316 | the outcome, the events and the final message are those of `InstallRun`; success ends in `Completed` and failure in `Install Error` |
| Install.ApplySettings | src/renderer/lib/install.ts:129-135 | writes the seven settings over the template's environment |
| Install.PlaceVolumes | src/renderer/lib/install.ts:137-147 | appends the ISO and places the storage volume as `ConfiguredVolumes` says |
| Install.FindStorageVolume | src/renderer/lib/install.ts:141 | the index of the first storage volume, or -1 |

## Left out

- I/O is not modelled. File reads and writes, `execSync`/`execAsync`, `fetch`, sockets and timers become inputs, as listed above. `YAML.stringify` and the written file are not modelled: the Compose file is the service value.
- The parse of a QMP chunk is abstract: a chunk is the parsed value or a parse failure. Chunk boundaries that split or join messages are not modelled.
- `Specs.GetSpecs` gets memory and free disk space as figures already rounded. The division and two-decimal rounding in floating point are not modelled, and neither is a `MemTotal` line without a number.
- The installer's file-system failures in `createComposeFile` are not modelled. They throw without reporting `Install Error`; the model's compose step always succeeds.
- Install.InstallManager.CreateOemAssets: a failure to create the OEM directory (install.ts:164-166) is not modelled. It happens outside the `try`, so the installation throws right after `Creating OEM` without reporting `Install Error`; `install()` has no catch. The model always creates the directory, so `Install.InstallStateOrder`, `Install.InstallSucceedsIff` and `Install.InstallManager.Install` speak only of runs where it exists.
- Json.HasProperty: keys a value inherits from its prototype (`"push" in []`, `"toString" in {}`) are not modelled; `in` is membership among the value's own keys. The keys the source tests, `QMP` and `return`, are inherited by neither objects nor arrays, so the QMP checks are unaffected.
- `Install.InstallManager.CreateComposeFile` does not model the shared template. The source copies the template shallowly, so its volume list is pushed to in place, and a second install in the same process would start from the first one's volumes. The model writes from an unchanged template each time.
- The Compose fields `name`, `cap_add`, `privileged`, `stop_grace_period` and `restart`, and the top-level `data` volume, are not part of the service value. The installer never changes them.
- The polling loops end when their answers run out, with the outcome `Polling`; this stands for a loop still polling. The 3-second, 500 ms and 5-second waits, and the every-12th-attempt logging, are not modelled.
- `isInstalled` is not modelled; it runs one Docker command and tests its output for a substring.
- Usb.Resolve: runs the corrected `lsusb` scraper (`Lsusb.DeviceStringsFromLsusb`), not the patterns of usbmanager.ts:454-455 as written, whose `\s` also matches a line break; the behaviour as written is `Lsusb.DeviceStringsAsWritten`, shown in the first Findings row.
- `Usb.UsbManager.StringifyDevice` uses one `lsusb` listing per device for both lookups. The source runs `lsusb` twice on some misses; the model counts both runs but gives them the same output.
- Usb.UsbManager.OnOnlineChanged: does not count the `lsusb` runs of the whole loop; the count for each attached entry is stated by `Usb.UsbManager.AttachIfAbsent`, and the loop is stated by its effect on the MTP cache and the freed nodes.
- The attach handler's second label only goes to the log. It is a cache hit, so it is left out of `Usb.UsbManager.OnAttach`.
- Two devices with the same vendor and product ids cannot be told apart by the source either. The model keeps its single `vid:pid` id.
- The singleton check of the `USBManager` constructor is not modelled: the model constructs one manager.
- Vue reactivity, and the interleaving of several asynchronous handlers, are not modelled. Each handler runs to its end, or stops at a reply that never comes.
- The logger is not modelled, and neither is `freeMTPDevice`'s own use of `fuser`: the model records which device node it is asked to free.
- `Qmp.QmpSession.IsAlive` takes the timeout as a flag saying whether the reply came too late. The 2000 ms constant is kept as `Qmp.IsAliveTimeoutMs`.
- `Install.InstallStateOrder` shows `Completed` twice on success, because both `monitorAPIHealth` and `install` report it; the model keeps both.

## Findings

| source | as written | input that shows it | evidently intended | confidence | as-written member | corrected member |
|---|---|---|---|---|---|---|
| src/renderer/lib/usbmanager.ts:454 | `^\s*iManufacturer\s+\d+\s+(.+)$` with `\s`, which also matches a line break | a listing `iManufacturer 0\niProduct 2 X`: a device without a manufacturer string | the descriptor's value on its own line, and no manufacturer when the line has none | not executed | Lsusb.ManufacturerTakenFromNextLine | Lsusb.DeviceStringsFromLsusb |
| src/renderer/lib/usbmanager.ts:165-168 | a miss shows `vendor.name` whenever a vendor record exists, even with an empty name, while the cache stores `null` for that name | a usb.ids line `abcd  ` (vendor `abcd`, name empty), with `lsusb` giving no manufacturer: the first label shows an empty vendor, and every later one shows `Unknown Vendor` | one label per device, the same on a miss and on every hit | not executed | Usb.EmptyVendorLabelChanges | Usb.UsbManager.StringifyDevice |
