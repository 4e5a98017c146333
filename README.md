# airtube: device selection and the play pipeline, in Dafny

airtube is a command-line tool that plays a YouTube video on an AirPlay
receiver. This project models and proves two pieces of its logic.

- **The interactive device selector** `prompt_user_to_choose_one_device`
  (lib/AirPlay_devices.js), module `AirPlayDevices`.
  - A list with no devices yields "no device" (`cb(false)`).
  - A list with one device yields that device without reading input.
  - A longer list is printed as a numbered menu.
  - Input then arrives as a finite sequence of the texts that stdin's
    `data` events deliver. Each is trimmed, read as a number and
    range-checked. Blank, non-numeric and out-of-range texts re-prompt.
  - The first text that names a listed number selects
    `devices[n - 1]` and stops the reading.
  - `PromptUserToChooseOneDevice` is the loop over the input. It is proved
    against the specification functions `Choose`, `LinesRead` and
    `Transcript`. The lemmas beside it state the selector's promises in
    terms of those functions.
- **The fail-fast pipeline** of index.js, module `AirTube`:
  `ytdl.getInfo(url) → chooseFormat → findDevice → playVideo → catch → process.exit`.
  - The libraries are not modelled. What they answer is an input, `World`:
    - how `getInfo` settles;
    - what `ytdl.chooseFormat` returns or throws;
    - the devices the bonjour browser reports, in order;
    - how the device answers `play`.
  - A promise that never settles is `Pending`, and the run then ends `Hung`.
  - The method `Run` executes the script's stages in order. It records the
    library calls it makes as `Event`s.
  - `Run` is proved equal to the specification functions `Outcome` and
    `Trace`. The lemmas state fail-fast, `--device` precedence,
    first-discovered-wins, the exit codes and the stage order.
- **Module `Text`** holds the two JavaScript built-ins the selector needs:
  - `String.prototype.trim`, over ECMAScript's white space and line
    terminators;
  - `Number(text)`, restricted to optionally signed decimal integers;
  - the decimal rendering of the menu's numbers.
- **Module `Bonjour`** holds the service record the bonjour browser
  reports (host, port, name). The selector and the pipeline both use it;
  neither depends on the other.

Four facts about the code shape the model:

- The code has no discovery timer. `findDevice` resolves on the first
  bonjour `up` event and waits forever when there is none.
- index.js never calls the selector. Without `--device` it always takes
  the first device discovered.
- `process.exit(-1)` is seen by the operating system as status 255. The
  model keeps the value the script passes, -1.
- `--port`'s default is the number 7000. A port given on the command line
  stays the text the user typed, because commander does not convert it.
  That is why `PortValue` has two forms.

## Model

| member | source | states |
|---|---|---|
| `AirPlayDevices.PromptUserToChooseOneDevice` | lib/AirPlay_devices.js:3-44 | No devices: no device and no input read. One device: that device and no input read. Otherwise the callback value, the number of lines consumed and everything written are exactly `Choose`, `LinesRead` and `Transcript` of the devices and the input. |
| `AirPlayDevices.OnData` | lib/AirPlay_devices.js:24-43 | One `data` event writes the re-prompt (after the range message for an out-of-range number) or nothing. It hands over a device exactly when the line picks one, and that device is `devices[index]`. |
| `AirPlayDevices.RenderMenu` | lib/AirPlay_devices.js:7-12 | The printed list is `MenuOf(devices)`: one entry per device, in list order, numbered from 1, with its host and name. |
| `AirPlayDevices.ClassifyLine` | lib/AirPlay_devices.js:27-37 | A line that picks always picks an index below the device count, so `devices[num]` is in bounds. |
| `AirPlayDevices.ClassifyTrimmed` | lib/AirPlay_devices.js:28-37 | A trimmed text is blank exactly when it is empty. It is "not a number" exactly when it is not empty and `Number` gives NaN. It is out of range exactly when it is a number outside `1..count`. A pick of index `i` happens only for the number `i + 1` with `i` below the count. |
| `AirPlayDevices.ClassifyNumber` | lib/AirPlay_devices.js:30-37 | A non-blank line is "not a number" exactly when `Number` gives NaN. A pick of index `i` happens only when the number was `i + 1` and `i` is below the count. |
| `AirPlayDevices.BlankLine` | lib/AirPlay_devices.js:27-28 | A line re-prompts as blank exactly when it is nothing but white space. |
| `AirPlayDevices.ClassifyNonBlank` | lib/AirPlay_devices.js:30-37 | For a line that is not blank: NaN re-prompts. A number `n` picks `n - 1` exactly when `1 <= n <= count`. Every other number is out of range. |
| `AirPlayDevices.ClassifyPadded` | lib/AirPlay_devices.js:27 | White space added before and after any line, such as the typed newline, does not change how it is handled. |
| `AirPlayDevices.MenuLabelSelects` | lib/AirPlay_devices.js:9-42 | Typing the number printed beside menu entry `i`, with or without trailing white space, picks device `i`. |
| `AirPlayDevices.FirstPick` | lib/AirPlay_devices.js:39-42 | The position found holds a picking line, and no earlier line (no line at all when none is found) picks. |
| `AirPlayDevices.Choose` | lib/AirPlay_devices.js:3-5 | A chosen device is always an element of the list. The result is "no device" exactly when the list is empty. |
| `AirPlayDevices.LinesRead` | lib/AirPlay_devices.js:39-40 | The selector never consumes more lines than there are. It consumes none with zero or one device. |
| `AirPlayDevices.ChooseFirstValidLine` | lib/AirPlay_devices.js:33-42 | With two or more devices, line `k` picks and every earlier line is rejected exactly when a device is chosen after reading `k + 1` lines. That device is `devices[index of line k]`. |
| `AirPlayDevices.AwaitingWithoutValidLine` | lib/AirPlay_devices.js:24-43 | With two or more devices, the callback has not fired exactly when no input line picks a device. |
| `AirPlayDevices.LaterLinesIgnored` | lib/AirPlay_devices.js:39-42 | Once a device is chosen, whatever follows the consumed lines changes neither the choice, nor the lines read, nor what is written. |
| `AirPlayDevices.ExampleRetries` | lib/AirPlay_devices.js:24-42 | With two devices and the lines "", "abc", "9", "2": three re-prompts, the range message before the third, then the second device after four lines. |
| `AirPlayDevices.ExampleBlank` | lib/AirPlay_devices.js:27-28 | The empty line is blank. |
| `AirPlayDevices.ExampleNotNumber` | lib/AirPlay_devices.js:30-31 | "abc" is not a number. |
| `AirPlayDevices.ExampleOutOfRange` | lib/AirPlay_devices.js:33-37 | "9" is out of range for two devices. |
| `AirPlayDevices.ExamplePick` | lib/AirPlay_devices.js:33-42 | "2" picks index 1 of two devices. |
| `Text.Trim` | lib/AirPlay_devices.js:27 | `trim` never lengthens its text, and what it leaves neither starts nor ends with white space. `TrimEmpty` and `TrimSurrounded` state when it leaves nothing and what padding it removes. |
| `Text.TrimEmpty` | lib/AirPlay_devices.js:27-28 | `trim` leaves nothing exactly when the text is all white space. |
| `Text.TrimSurrounded` | lib/AirPlay_devices.js:27 | White space added before and after any text does not change what `trim` leaves of it. |
| `Text.TrimPadded` | lib/AirPlay_devices.js:27 | White space before and after a word whose ends are not white space is removed, and the word is left intact. |
| `Text.ParseInteger` | lib/AirPlay_devices.js:30 | `Number` of a trimmed text is a number exactly when the text is digits with at most one leading `+` or `-`. The value is that of the digits, negated after `-`; so "+2" is 2 and "-0" is 0. |
| `Text.DecimalString` | lib/AirPlay_devices.js:10 | The menu number `${i + 1}` is a non-empty run of decimal digits without a leading zero. |
| `Text.DigitsValueOfDecimal` | lib/AirPlay_devices.js:10 | The numeral printed for `n` reads back as `n`. |
| `Text.ParseDecimalString` | lib/AirPlay_devices.js:30 | `Number` of a printed menu number is that number. |
| `Text.TrimDecimalString` | lib/AirPlay_devices.js:27 | A printed menu number has no surrounding white space for `trim` to remove. |
| `AirTube.Run` | index.js:77-89 | The script's outcome and the sequence of library calls it makes are exactly `Outcome` and `Trace` of the options and the world. |
| `AirTube.ProgramPort` | index.js:20 | The port is the number 7000 exactly when `--port` is not given. Otherwise it is the text given. |
| `AirTube.MissingUrlShowsHelp` | index.js:23-26 | Without a url (missing or empty), the usage is shown and none of the pipeline's calls (getInfo, chooseFormat, bonjour.find, AirPlay) is made. |
| `AirTube.ChooseFormat` | index.js:92-130 | `chooseFormat` always settles once the info is there. It rejects with the error `ytdl.chooseFormat` throws exactly when the info and its formats are present and that call throws. A missing `videoDetails` rejects with a TypeError instead. A resolved url is never empty. The full resolve and reject conditions are in `ChooseFormatResolves` and `ChooseFormatSilentRejection`. |
| `AirTube.ChooseFormatResolves` | index.js:92-130 | `chooseFormat` resolves exactly when all of these are present: the info, its formats, its video details, a chosen format and a non-empty url for it. It then yields `{title: info.videoDetails.title, url: format.url}`. |
| `AirTube.ChooseFormatSilentRejection` | index.js:94-108 | `chooseFormat` rejects with no reason exactly in two cases: the info or its formats are missing, or the chosen format or its url is missing. |
| `AirTube.SourceFailureSkipsLaterStages` | index.js:77-89 | When the source stage rejects, the process exits with -1 and that reason. Only `getInfo` and `chooseFormat` were called. Discovery results and the device's reply make no difference. |
| `AirTube.PlayVideo` | index.js:149-178 | `playVideo` resolves only with 0. It rejects exactly when the play callback gets an error, and stays pending exactly when the callback never comes. `PlayFailureExits` and `ExitCodes` state its effect on the run. |
| `AirTube.PlayFailureExits` | index.js:162-167 | A play error exits with -1 and the error, after the device was contacted with the resolved host, port and url. Nothing is announced. |
| `AirTube.FindDevice` | index.js:132-147 | `findDevice` never rejects. It stays pending exactly when there is no `--device` and no device is reported. It passes the video info on unchanged, and without `--device` the host is the first reported device's. `ExplicitDeviceWins`, `FirstDiscoveredWins` and `NoDeviceFoundHangs` state its effect on the whole run. |
| `AirTube.ExplicitDeviceWins` | index.js:134-135 | With `--device`, the device stage resolves with that host and the program's port. Discovery is never started or stopped, and the browser's reports make no difference. |
| `AirTube.FirstDiscoveredWins` | index.js:137-143 | Without `--device`, the first reported device is used with its own port and the browser is stopped. Devices reported after it make no difference. |
| `AirTube.NoDeviceFoundHangs` | index.js:137-145 | Without `--device` and with no device reported, the run never ends. Starting discovery is its last call. |
| `AirTube.ExitCodes` | index.js:77-89 | The exit status is 0 or -1. It is 0 exactly when every stage resolves and the device plays. It is -1 exactly when some stage rejects. The run hangs exactly when some stage never settles. |
| `AirTube.StagesInOrder` | index.js:77-81 | Every call of a run comes after the calls of all earlier stages, and no kind of call repeats. |
| `AirTube.StagesGated` | index.js:77-89 | `chooseFormat` calls the library only after the info arrived. Discovery starts only after the source stage resolved without `--device`. The device is contacted only with the target the device stage resolved with. The final line appears only on a run that exits with 0. |
| `AirTube.PlayText` | index.js:170-172 | The final line always starts with "Playing " and ends with "...". `PlayTextNamesTitle` states where the title goes. |
| `AirTube.PlayTextNamesTitle` | index.js:170-174 | The final line quotes the video's title when it has one. Otherwise it is "Playing YouTube video...". |
| `AirTube.ExampleExplicitDevice` | index.js:77-178 | `-d apple-tv.local` with no port, on a video with a title: the calls are getInfo, chooseFormat, connecting on port 7000, play and the title line, and the exit status is 0. |

## Left out

- Text.ParseInteger: `Number(text)` is modelled only for optionally signed decimal integers with ASCII digits. JavaScript accepts more, and the model calls these lines "not a number":
  - "1.0" and "2e0" give a whole number that picks a device;
  - "0x2" and "0b10" give a number in another base;
  - "1.5" gives a fraction, so the callback gets `devices[0.5]`, which is `undefined`;
  - "Infinity" gives an infinite number, which is out of range.
- Presentation: the `ora` spinners, `chalk` colours and the verbose logging helpers (index.js:28-72, and the `program.verbose` blocks) are not modelled. So are the success and failure texts apart from the final "Playing" line, and the blank `console.log()` lines of the selector. These are output only and decide nothing.
- commander's parsing, `--version` and the help text (index.js:15-26): the parsed url and options are inputs. The help outcome is `Help`, without the status commander exits with.
- The libraries: ytdl-core, the bonjour browser and airplay-protocol are not part of this model. Their answers are the fields of `World`. How `ytdl.chooseFormat` applies `{filter: 'video'}` is the library's business.
- The `!airplayDevice` check (index.js:155-159): `new` always yields an object, so this branch cannot fire. The model has no constructor failure.
- Device `error` events (the TODO at index.js:161) and anything bonjour reports after `browser.stop()` are not modelled. The code does not handle the former, and the latter cannot change an already settled promise.
- `process.stdin` resume, pause and encoding: the input is a finite sequence of texts, and "stopped reading" is the `LinesRead` count. A `data` chunk is one text as delivered, even if it holds several lines.
- Timing and concurrency: the stages are modelled in their promise order. Nothing about how long any of them takes is modelled.
