/**
 * The one-shot firmware script: it takes a file name and a collection
 * mode on the command line, runs one baseline or sampling collection
 * (the same ADC protocol and sweep segmentation as the standalone
 * driver), writes the raw-data CSV file and then waits for a file to
 * appear before it exits.
 */
module Firmware {
  import opened PyCore

  const ModeBaseline := 1
  const ModeSampling := 2

  /** The mode argument: "BASELINE" is 1, "SAMPLING" is 2; anything else
      prints a warning and calls exit(). */
  function ModeNumber(arg: string): (r: Result<int>)
    ensures r.Ok? <==> arg == "BASELINE" || arg == "SAMPLING"
    ensures r.Ok? ==> r.value in {ModeBaseline, ModeSampling}
    ensures r.Err? ==> r.error == SystemExit
    ensures arg == "BASELINE" ==> r == Ok(ModeBaseline)
    ensures arg == "SAMPLING" ==> r == Ok(ModeSampling)
  {
    if arg == "BASELINE" then Ok(ModeBaseline)
    else if arg == "SAMPLING" then Ok(ModeSampling)
    else Err(SystemExit)
  }

  /** The argument loop: argv[1] is the file name and argv[2] the mode;
      further arguments are ignored. Without argv[2] the mode variable is
      never bound and the print that follows raises NameError, so the
      timestamp file name meant for a missing argv[1] is never used. */
  function ParseArgs(argv: seq<string>): (r: Result<(string, int)>)
    ensures r.Ok? <==> |argv| >= 3 && (argv[2] == "BASELINE" || argv[2] == "SAMPLING")
    ensures |argv| < 3 ==> r == Err(NameError)
    ensures |argv| >= 3 && ModeNumber(argv[2]).Err? ==> r == Err(SystemExit)
    ensures r.Ok? ==> r.value.0 == argv[1] && r.value.1 == ModeNumber(argv[2]).value
  {
    if |argv| < 3 then Err(NameError)
    else
      var mode := ModeNumber(argv[2]);
      if mode.Err? then Err(mode.error) else Ok((argv[1], mode.value))
  }

  /** The file the collection thread writes. */
  function WrittenName(stamp: string, device: string, mode: int): string
  {
    stamp + "_" + device + (if mode == ModeBaseline then "_BASELINE_RAW_DATA.csv" else "_SAMPLING_RAW_DATA.csv")
  }

  /** The file the main script waits for: the mode is the number, not the
      word, and the device id is missing. */
  function PolledName(stamp: string, mode: nat): string
  {
    stamp + "_" + NatToString(mode) + "_RAW_DATA.csv"
  }

  /** The polled name never equals the written one: fourteen characters
      from the end the written name has the last letter of BASELINE or
      SAMPLING, the polled name a digit. */
  lemma PolledNeverWritten(stamp: string, device: string, mode: nat, stamp': string)
    ensures PolledName(stamp', mode) != WrittenName(stamp, device, mode)
  {
    var w := WrittenName(stamp, device, mode);
    var p := PolledName(stamp', mode);
    var tail := "_RAW_DATA.csv";
    assert p[|p| - 14] == NatToString(mode)[|NatToString(mode)| - 1];
    assert w[|w| - 14] in {'E', 'G'};
  }

  /** The wait loop: test for the file, sleep, count, and give up once the
      counter passes 10. present(k) says whether the file exists at the
      k-th test. Returns the number of tests made and whether the file was
      found. */
  method WaitForFile(present: nat -> bool) returns (tests: nat, found: bool)
    ensures 1 <= tests <= 11
    ensures found <==> present(tests - 1)
    ensures forall k :: 0 <= k < tests - 1 ==> !present(k)
    ensures !found ==> tests == 11
  {
    var counter := 0;
    found := false;
    while true
      invariant 0 <= counter <= 10
      invariant forall k :: 0 <= k < counter ==> !present(k)
      decreases 10 - counter
    {
      if present(counter) {
        found := true;
        break;
      }
      counter := counter + 1;
      if counter > 10 {
        break;
      }
    }
    tests := counter + (if found then 1 else 0);
  }

  /** The wait as written: the directory holds the written file and
      other files without the polled name, and the poll gives up after
      eleven tests. */
  method WaitForRawData(stamp: string, device: string, mode: nat, others: set<string>)
      returns (tests: nat, found: bool)
    requires PolledName(stamp, mode) !in others
    ensures !found && tests == 11
  {
    var files := others + {WrittenName(stamp, device, mode)};
    PolledNeverWritten(stamp, device, mode, stamp);
    tests, found := WaitForFile(k => PolledName(stamp, mode) in files);
  }

  /** The wait as intended: polling the name the collection thread wrote
      finds it at the first test. */
  method WaitForWrittenData(stamp: string, device: string, mode: nat, others: set<string>)
      returns (tests: nat, found: bool)
    ensures found && tests == 1
  {
    var files := others + {WrittenName(stamp, device, mode)};
    var present := (k: nat) => WrittenName(stamp, device, mode) in files;
    tests, found := WaitForFile(present);
    assert present(0);
  }

  /** The column names of the raw-data file. */
  const RawDataHeader := ["Time", "d_time", "s_time", "fs_time", "Gate Voltage", "Ids",
    "raw_adc_binary_ch1", "raw_adc_binary_ch2", "raw_adc_voltage_ch1", "raw_adc_voltage_ch2", "Slope", "Peak"]

  /** A CSV file: a header row and data rows. */
  datatype Csv = Csv(header: seq<string>, rows: seq<seq<real>>)

  /** The write loop: the header row, then for every n < index_t one row
      holding the twelve acquisition arrays at n, in header order. */
  method RawDataTable(columns: seq<seq<real>>, indexT: nat) returns (csv: Csv)
    requires |columns| == |RawDataHeader|
    requires forall c :: 0 <= c < |columns| ==> indexT <= |columns[c]|
    ensures csv.header == RawDataHeader
    ensures |csv.rows| == indexT
    ensures forall n :: 0 <= n < indexT ==> |csv.rows[n]| == |RawDataHeader|
    ensures forall n, c :: 0 <= n < indexT && 0 <= c < |RawDataHeader| ==> csv.rows[n][c] == columns[c][n]
  {
    var rows: seq<seq<real>> := [];
    var n := 0;
    while n < indexT
      invariant 0 <= n <= indexT && |rows| == n
      invariant forall m :: 0 <= m < n ==> |rows[m]| == |RawDataHeader|
      invariant forall m, c :: 0 <= m < n && 0 <= c < |RawDataHeader| ==> rows[m][c] == columns[c][m]
    {
      var a := seq(|RawDataHeader|, c requires 0 <= c < |RawDataHeader| => columns[c][n]);
      n := n + 1;
      rows := rows + [a];
    }
    csv := Csv(RawDataHeader, rows);
  }

  /** Every name of the header is different, so each column can be found
      by its name; the last two are the segmentation arrays. */
  lemma HeaderNamesDistinct()
    ensures forall i, j :: 0 <= i < j < |RawDataHeader| ==> RawDataHeader[i] != RawDataHeader[j]
    ensures RawDataHeader[10] == "Slope" && RawDataHeader[11] == "Peak"
  {
  }
}
