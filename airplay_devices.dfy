/**
 * The interactive device selector `prompt_user_to_choose_one_device` of
 * lib/AirPlay_devices.js: zero devices give no device, one device is taken
 * at once, and two or more are listed as a numbered menu after which input
 * lines are read until one names a listed number.
 *
 * The input stream is a finite sequence of the texts delivered by stdin's
 * `data` events; the callback is the `Choice` returned. When the lines run
 * out before a valid one, the callback has not fired (`AwaitingInput`).
 */
module AirPlayDevices {
  import opened Wrappers
  import opened Text
  import opened Bonjour

  /** What the callback receives, or that it has not been called yet. */
  datatype Choice =
    | NoDevice              // cb(false)
    | Chosen(device: Device) // cb(devices[n - 1])
    | AwaitingInput         // still reading, the callback has not fired

  /** How one input line is handled. */
  datatype LineClass =
    | Blank           // empty after trimming: re-prompt
    | NotNumber       // Number(text) is NaN: re-prompt
    | OutOfRange      // a number outside 1..count: message, then re-prompt
    | Pick(index: nat) // the 0-based index of the chosen device

  /** One line of the numbered menu: `    <number>) <host> (<name>)`. */
  datatype MenuEntry = MenuEntry(number: string, host: string, name: string)

  /** What the selector writes to the console, in order. */
  datatype Notice =
    | Menu(entries: seq<MenuEntry>) // "Please select one AirPlay device:" and the list
    | EnterNumber                   // "Please enter the number corresponding to your selection:"
    | OutsideRange                  // "The number entered is outside the range of valid options."

  /**
   * The handling of one `data` event against `count` devices: trim, then
   * `Number`, then the range check on the number minus one.
   */
  function ClassifyLine(text: string, count: nat): (c: LineClass)
    ensures c.Pick? ==> c.index < count
  {
    ClassifyTrimmed(Trim(text), count)
  }

  /** The handling of a line once it has been trimmed. */
  function ClassifyTrimmed(t: string, count: nat): (c: LineClass)
    ensures c == Blank <==> t == []
    ensures c == NotNumber <==> t != [] && ParseInteger(t).None?
    ensures c.Pick? ==> c.index < count && ParseInteger(t) == Some(c.index + 1)
    ensures c == OutOfRange <==> t != [] && ParseInteger(t).Some? && !(1 <= ParseInteger(t).value <= count)
  {
    if t == [] then Blank else ClassifyNumber(ParseInteger(t), count)
  }

  /** The handling of what `Number` made of a non-blank line. */
  function ClassifyNumber(num: Option<int>, count: nat): (c: LineClass)
    ensures c != Blank
    ensures c == NotNumber <==> num.None?
    ensures c.Pick? ==> c.index < count && num == Some(c.index + 1)
    ensures num.Some? && 1 <= num.value <= count ==> c == Pick(num.value - 1)
  {
    match num
    case None => NotNumber
    case Some(n) => if 1 <= n <= count then Pick(n - 1) else OutOfRange
  }

  /** A line is blank exactly when it holds nothing but white space. */
  lemma BlankLine(text: string, count: nat)
    ensures ClassifyLine(text, count) == Blank <==> AllSpace(text)
  {
    TrimEmpty(text);
  }

  /**
   * A line that is not blank re-prompts as `NotNumber` exactly when it is
   * not a number, and a number `n` picks index `n - 1` exactly when
   * `1 <= n <= count`; every other number is out of range.
   */
  lemma ClassifyNonBlank(text: string, count: nat)
    requires Trim(text) != []
    ensures ClassifyLine(text, count) == NotNumber <==> ParseInteger(Trim(text)).None?
    ensures ParseInteger(Trim(text)).Some? ==>
              var n := ParseInteger(Trim(text)).value;
              ClassifyLine(text, count) == if 1 <= n <= count then Pick(n - 1) else OutOfRange
  {
  }

  /** Surrounding white space (a typed newline, say) does not change how a line is handled. */
  lemma ClassifyPadded(pre: string, t: string, post: string, count: nat)
    requires AllSpace(pre) && AllSpace(post)
    ensures ClassifyLine(pre + t + post, count) == ClassifyLine(t, count)
  {
    TrimSurrounded(pre, t, post);
  }

  /** The menu as printed by the `for` loop: entry `i` is numbered `i + 1`. */
  function MenuOf(devices: seq<Device>): seq<MenuEntry> {
    seq(|devices|, i requires 0 <= i < |devices| =>
      MenuEntry(DecimalString(i + 1), devices[i].host, devices[i].name))
  }

  /** Typing the number of menu entry `i` (with or without a line end) picks device `i`. */
  lemma MenuLabelSelects(devices: seq<Device>, i: nat, lineEnd: string)
    requires i < |devices|
    requires AllSpace(lineEnd)
    ensures ClassifyLine(MenuOf(devices)[i].number + lineEnd, |devices|) == Pick(i)
  {
    var s := DecimalString(i + 1);
    AllDigitsEnds(s);
    assert [] + s + lineEnd == s + lineEnd;
    ClassifyPadded([], s, lineEnd, |devices|);
    ClassifyNumeral(s, |devices|);
    DigitsValueOfDecimal(i + 1);
  }

  /** Renders the numbered list, one entry per device in list order. */
  method RenderMenu(devices: seq<Device>) returns (menu: seq<MenuEntry>)
    ensures menu == MenuOf(devices)
  {
    menu := [];
    for i := 0 to |devices|
      invariant menu == MenuOf(devices[..i])
    {
      assert devices[..i + 1][..i] == devices[..i];
      menu := menu + [MenuEntry(DecimalString(i + 1), devices[i].host, devices[i].name)];
    }
    assert devices[..|devices|] == devices;
  }

  /** How each input line is handled against `count` devices. */
  function Classes(lines: seq<string>, count: nat): seq<LineClass> {
    seq(|lines|, j requires 0 <= j < |lines| => ClassifyLine(lines[j], count))
  }

  /** The position of the first line that picks a device, if any. */
  function FirstPick(cs: seq<LineClass>): (k: Option<nat>)
    ensures k.Some? ==> k.value < |cs| && cs[k.value].Pick?
    ensures forall j :: 0 <= j < |cs| && (k.None? || j < k.value) ==> !cs[j].Pick?
  {
    if cs == [] then None
    else if cs[0].Pick? then Some(0)
    else match FirstPick(cs[1..])
      case None => None
      case Some(j) => Some(j + 1)
  }

  /**
   * The selector's outcome: decided by the number of devices alone when it
   * is 0 or 1, and otherwise by the first line that picks a device.
   * Whatever is chosen is one of the listed devices.
   */
  function Choose(devices: seq<Device>, lines: seq<string>): (c: Choice)
    ensures c.Chosen? ==> c.device in devices
    ensures c == NoDevice <==> |devices| == 0
  {
    if |devices| == 0 then NoDevice
    else if |devices| == 1 then Chosen(devices[0])
    else
      var cs := Classes(lines, |devices|);
      match FirstPick(cs)
      case None => AwaitingInput
      case Some(k) => Chosen(devices[cs[k].index])
  }

  /** How many input lines the selector consumes before it stops reading. */
  function LinesRead(devices: seq<Device>, lines: seq<string>): (n: nat)
    ensures n <= |lines|
    ensures |devices| <= 1 ==> n == 0
  {
    if |devices| <= 1 then 0
    else match FirstPick(Classes(lines, |devices|))
      case None => |lines|
      case Some(k) => k + 1
  }

  /** What handling one line writes: nothing once a device is picked. */
  function Echo(c: LineClass): seq<Notice> {
    match c
    case Pick(_) => []
    case OutOfRange => [OutsideRange, EnterNumber]
    case _ => [EnterNumber]
  }

  /** What handling the lines `cs` one after the other writes. */
  function Replies(cs: seq<LineClass>): seq<Notice> {
    if cs == [] then [] else Replies(cs[..|cs| - 1]) + Echo(cs[|cs| - 1])
  }

  lemma RepliesSnoc(cs: seq<LineClass>, k: nat)
    requires k < |cs|
    ensures Replies(cs[..k + 1]) == Replies(cs[..k]) + Echo(cs[k])
  {
    assert cs[..k + 1][..k] == cs[..k];
  }

  /** Everything the selector writes, given the devices and the input lines. */
  function Transcript(devices: seq<Device>, lines: seq<string>): seq<Notice> {
    if |devices| <= 1 then []
    else [Menu(MenuOf(devices)), EnterNumber] + Replies(Classes(lines, |devices|)[..LinesRead(devices, lines)])
  }

  /**
   * `prompt_user_to_choose_one_device(devices, cb)` run on the input lines:
   * returns what the callback received, how many lines were consumed and
   * what was written to the console.
   */
  method PromptUserToChooseOneDevice(devices: seq<Device>, input: seq<string>)
    returns (choice: Choice, read: nat, notices: seq<Notice>)
    ensures |devices| == 0 ==> choice == NoDevice && read == 0 && notices == []
    ensures |devices| == 1 ==> choice == Chosen(devices[0]) && read == 0 && notices == []
    ensures choice == Choose(devices, input)
    ensures read == LinesRead(devices, input)
    ensures notices == Transcript(devices, input)
  {
    if |devices| == 0 {
      return NoDevice, 0, [];
    }
    if |devices| == 1 {
      return Chosen(devices[0]), 0, [];
    }
    var menu := RenderMenu(devices);
    ghost var cs := Classes(input, |devices|);
    // what is written after the first prompt, one reaction per line read
    var replies: seq<Notice> := [];
    choice := AwaitingInput;
    read := 0;
    var stopped := false;
    while read < |input| && !stopped
      invariant read <= |input|
      invariant !stopped ==> choice == AwaitingInput
      invariant !stopped ==> FirstPick(cs[..read]) == None
      invariant stopped ==> 0 < read && FirstPick(cs) == Some(read - 1)
      invariant stopped ==> choice == Chosen(devices[cs[read - 1].index])
      invariant replies == Replies(cs[..read])
    {
      RepliesSnoc(cs, read);
      if cs[read].Pick? {
        FirstPickFound(cs, read);
      } else {
        FirstPickExtend(cs, read);
      }
      var picked, written := OnData(devices, input[read]);
      replies := replies + written;
      read := read + 1;
      if picked.Some? {
        // process.stdin.pause(), then the callback
        stopped := true;
        choice := Chosen(picked.value);
      }
    }
    if !stopped {
      assert cs[..read] == cs;
    }
    notices := [Menu(menu), EnterNumber] + replies;
  }

  /**
   * The stdin `data` handler: what it writes for one line and the device it
   * hands to the callback, if any.
   */
  method OnData(devices: seq<Device>, text: string) returns (picked: Option<Device>, written: seq<Notice>)
    ensures written == Echo(ClassifyLine(text, |devices|))
    ensures picked.Some? <==> ClassifyLine(text, |devices|).Pick?
    ensures picked.Some? ==> picked.value == devices[ClassifyLine(text, |devices|).index]
  {
    var c := ClassifyLine(text, |devices|);
    written := Echo(c);
    if c.Pick? {
      // the callback receives devices[num]
      picked := Some(devices[c.index]);
    } else {
      picked := None;
    }
  }

  /** A picking line preceded only by non-picking lines is the first pick. */
  lemma {:induction false} FirstPickIsFirst(cs: seq<LineClass>, k: nat)
    requires k < |cs| && cs[k].Pick?
    requires forall j :: 0 <= j < k ==> !cs[j].Pick?
    ensures FirstPick(cs) == Some(k)
  {
    if k > 0 {
      FirstPickIsFirst(cs[1..], k - 1);
    }
  }

  /** Extending the lines read by one that does not pick: still no pick. */
  lemma FirstPickExtend(cs: seq<LineClass>, k: nat)
    requires k < |cs| && FirstPick(cs[..k]) == None && !cs[k].Pick?
    ensures FirstPick(cs[..k + 1]) == None
  {
    assert forall j :: 0 <= j < k ==> cs[..k][j] == cs[..k + 1][j];
    FirstPickNone(cs[..k + 1]);
  }

  /** The first line that picks, after lines that did not, is the first pick. */
  lemma FirstPickFound(cs: seq<LineClass>, k: nat)
    requires k < |cs| && FirstPick(cs[..k]) == None && cs[k].Pick?
    ensures FirstPick(cs) == Some(k)
  {
    assert forall j :: 0 <= j < k ==> cs[..k][j] == cs[j];
    FirstPickIsFirst(cs, k);
  }

  /** Without any picking line there is no first pick. */
  lemma FirstPickNone(cs: seq<LineClass>)
    requires forall j :: 0 <= j < |cs| ==> !cs[j].Pick?
    ensures FirstPick(cs) == None
  {
  }

  /**
   * With two or more devices, a device is chosen exactly when some line
   * `k` picks index `i`, every earlier line was rejected, and the device is
   * `devices[i]`; the selector then has read exactly `k + 1` lines.
   */
  lemma ChooseFirstValidLine(devices: seq<Device>, lines: seq<string>, k: nat)
    requires |devices| >= 2
    requires k < |lines|
    ensures (ClassifyLine(lines[k], |devices|).Pick?
             && forall j :: 0 <= j < k ==> !ClassifyLine(lines[j], |devices|).Pick?)
            <==>
            (Choose(devices, lines).Chosen? && LinesRead(devices, lines) == k + 1)
    ensures LinesRead(devices, lines) == k + 1 && Choose(devices, lines).Chosen? ==>
              ClassifyLine(lines[k], |devices|).Pick?
              && Choose(devices, lines).device == devices[ClassifyLine(lines[k], |devices|).index]
  {
    var cs := Classes(lines, |devices|);
    assert forall j :: 0 <= j < |lines| ==> cs[j] == ClassifyLine(lines[j], |devices|);
    if ClassifyLine(lines[k], |devices|).Pick? && forall j :: 0 <= j < k ==> !ClassifyLine(lines[j], |devices|).Pick? {
      FirstPickIsFirst(cs, k);
    }
  }

  /** With two or more devices the callback stays pending exactly when no line picks a device. */
  lemma AwaitingWithoutValidLine(devices: seq<Device>, lines: seq<string>)
    requires |devices| >= 2
    ensures Choose(devices, lines) == AwaitingInput <==>
            forall j :: 0 <= j < |lines| ==> !ClassifyLine(lines[j], |devices|).Pick?
  {
    var cs := Classes(lines, |devices|);
    assert forall j :: 0 <= j < |lines| ==> cs[j] == ClassifyLine(lines[j], |devices|);
    if forall j :: 0 <= j < |lines| ==> !ClassifyLine(lines[j], |devices|).Pick? {
      FirstPickNone(cs);
    }
  }

  /**
   * Input is no longer read once a device is chosen: whatever follows the
   * consumed lines changes neither the choice nor what was written.
   */
  lemma LaterLinesIgnored(devices: seq<Device>, lines: seq<string>, rest: seq<string>)
    requires Choose(devices, lines).Chosen?
    ensures Choose(devices, lines[..LinesRead(devices, lines)] + rest) == Choose(devices, lines)
    ensures LinesRead(devices, lines[..LinesRead(devices, lines)] + rest) == LinesRead(devices, lines)
    ensures Transcript(devices, lines[..LinesRead(devices, lines)] + rest) == Transcript(devices, lines)
  {
    if |devices| >= 2 {
      var cs := Classes(lines, |devices|);
      var k := FirstPick(cs).value;
      var lines' := lines[..k + 1] + rest;
      var cs' := Classes(lines', |devices|);
      assert forall j :: 0 <= j <= k ==> cs'[j] == cs[j];
      FirstPickIsFirst(cs', k);
      assert cs'[..k + 1] == cs[..k + 1];
    }
  }

  /** The transcript depends on the lines only through how each is handled. */
  lemma TranscriptOfClasses(devices: seq<Device>, lines: seq<string>, cs: seq<LineClass>)
    requires |devices| >= 2 && Classes(lines, |devices|) == cs
    ensures Transcript(devices, lines) == [Menu(MenuOf(devices)), EnterNumber] + Replies(cs[..LinesRead(devices, lines)])
  {
  }

  /**
   * Two devices and the lines "", "abc", "9", "2": three re-prompts (the
   * third after the range message), then the second device.
   */
  lemma ExampleRetries(d1: Device, d2: Device)
    ensures var lines := ["", "abc", "9", "2"];
            Choose([d1, d2], lines) == Chosen(d2)
            && LinesRead([d1, d2], lines) == 4
            && Transcript([d1, d2], lines) ==
               [Menu(MenuOf([d1, d2])), EnterNumber] + [EnterNumber, EnterNumber, OutsideRange, EnterNumber]
  {
    var lines := ["", "abc", "9", "2"];
    ExampleBlank();
    ExampleNotNumber();
    ExampleOutOfRange();
    ExamplePick();
    ClassesOfFour(lines, 2);
    RetriesThenPick([d1, d2], lines);
  }

  lemma ClassesOfFour(lines: seq<string>, count: nat)
    requires |lines| == 4
    ensures Classes(lines, count) ==
            [ClassifyLine(lines[0], count), ClassifyLine(lines[1], count),
             ClassifyLine(lines[2], count), ClassifyLine(lines[3], count)]
  {
  }

  /** Two devices and a blank, a non-number, an out-of-range number and then "2". */
  lemma RetriesThenPick(devices: seq<Device>, lines: seq<string>)
    requires |devices| == 2
    requires Classes(lines, 2) == [Blank, NotNumber, OutOfRange, Pick(1)]
    ensures Choose(devices, lines) == Chosen(devices[1])
    ensures LinesRead(devices, lines) == 4
    ensures Transcript(devices, lines) ==
            [Menu(MenuOf(devices)), EnterNumber] + [EnterNumber, EnterNumber, OutsideRange, EnterNumber]
  {
    var cs := [Blank, NotNumber, OutOfRange, Pick(1)];
    FirstPickIsFirst(cs, 3);
    assert cs[..4] == cs;
    RetriesReplies();
    TranscriptOfClasses(devices, lines, cs);
  }

  /** What the three rejected lines and the picking line write. */
  lemma RetriesReplies()
    ensures Replies([Blank, NotNumber, OutOfRange, Pick(1)]) == [EnterNumber, EnterNumber, OutsideRange, EnterNumber]
  {
    var c1, c2, c3, c4 := [Blank], [Blank, NotNumber], [Blank, NotNumber, OutOfRange], [Blank, NotNumber, OutOfRange, Pick(1)];
    assert c1[..0] == [] && c2[..1] == c1 && c3[..2] == c2 && c4[..3] == c3;
    assert Replies(c1) == [EnterNumber];
    assert Replies(c2) == [EnterNumber, EnterNumber];
    assert Replies(c3) == [EnterNumber, EnterNumber, OutsideRange, EnterNumber];
  }

  /** An empty line re-prompts. */
  lemma ExampleBlank()
    ensures ClassifyLine("", 2) == Blank
  {
  }

  /** A line that is no number re-prompts. */
  lemma ExampleNotNumber()
    ensures ClassifyLine("abc", 2) == NotNumber
  {
    assert Trim("abc") == "abc" by {
      assert [] + "abc" + [] == "abc";
      TrimPadded([], "abc", []);
    }
    assert ParseInteger("abc") == None by {
      assert !IsDigit("abc"[2]);
      assert !IsDigits("abc") && !IsDigits("abc"[1..]);
    }
  }

  /** "9" is beyond two devices. */
  lemma ExampleOutOfRange()
    ensures ClassifyLine("9", 2) == OutOfRange
  {
    assert DigitsValue("9") == 9 by {
      assert "9"[..0] == [];
    }
    ClassifyNumeral("9", 2);
  }

  /** "2" picks the second of two devices. */
  lemma ExamplePick()
    ensures ClassifyLine("2", 2) == Pick(1)
  {
    assert DigitsValue("2") == 2 by {
      assert "2"[..0] == [];
    }
    ClassifyNumeral("2", 2);
  }

  /** A line holding only a numeral is handled by its value. */
  lemma ClassifyNumeral(s: string, count: nat)
    requires IsDigits(s)
    ensures ClassifyLine(s, count) == ClassifyNumber(Some(DigitsValue(s)), count)
  {
    AllDigitsEnds(s);
    assert [] + s + [] == s;
    TrimPadded([], s, []);
    assert ClassifyLine(s, count) == ClassifyTrimmed(s, count);
  }
}
