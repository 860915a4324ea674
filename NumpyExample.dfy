/**
 * The example program that writes a 600 x 400 x 5 image held in a NumPy
 * array: three vertical bands of constant value, copied as a single block,
 * once for each of six sample-type configurations.
 */
module NumpyExample {
  import opened Results
  import opened ImageSize
  import opened BlockGrid
  import opened Converter
  import opened BlockCopy
  import Parameters
  import Calendar
  import Colors
  import Decimal

  /** The element type of the NumPy array handed to the converter. */
  datatype NumpyType = NpUInt8 | NpUInt16 | NpFloat32

  datatype TestConfiguration = TestConfiguration(
    id: nat,
    title: string,
    npType: NumpyType,
    imarisType: string,
    colorTable: seq<Colors.Color>)

  /** The NumPy element types of the six configurations, in order. */
  const ArrayTypes: seq<NumpyType> := [NpUInt8, NpUInt16, NpFloat32, NpUInt8, NpUInt8, NpUInt16]

  /** The sample types of the six configurations' images, in order. */
  const ConfigurationTypes: seq<SampleType> := [UInt8, UInt16, Float32, UInt16, Float32, Float32]

  /**
   * `get_test_configurations`: six configurations appended one by one, each
   * numbered by its position, each with a three-colour table, each naming its
   * sample type by the name the converter accepts for it.
   */
  method GetTestConfigurations() returns (configurations: seq<TestConfiguration>)
    ensures |configurations| == 6
    ensures forall i :: 0 <= i < 6 ==> configurations[i].id == i
    ensures forall i :: 0 <= i < 6 ==> |configurations[i].colorTable| == 3
    ensures forall i :: 0 <= i < 6 ==> configurations[i].npType == ArrayTypes[i]
    ensures forall i :: 0 <= i < 6 ==> configurations[i].imarisType == TypeName(ConfigurationTypes[i])
  {
    configurations := [];
    configurations := AddConfiguration(configurations, "uint8 image from uint8 numpy array", NpUInt8, "uint8",
      [Colors.Color(0.086, 0.608, 0.384, 1.0), Colors.Color(1.0, 1.0, 1.0, 1.0), Colors.Color(1.0, 0.533, 0.243, 1.0)]);
    configurations := AddConfiguration(configurations, "uint16 image from uint16 numpy array", NpUInt16, "uint16",
      [Colors.Color(0.0, 0.169, 0.498, 1.0), Colors.Color(0.988, 0.820, 0.086, 1.0), Colors.Color(1.0, 0.0, 0.0, 1.0)]);
    configurations := AddConfiguration(configurations, "float32 image from float32 numpy array", NpFloat32, "float32",
      [Colors.Color(0.0, 0.0, 0.0, 1.0), Colors.Color(0.992, 0.855, 0.141, 1.0), Colors.Color(0.937, 0.200, 0.251, 1.0)]);
    configurations := AddConfiguration(configurations, "uint16 image from uint8 numpy array", NpUInt8, "uint16",
      [Colors.Color(0.0, 0.0, 1.0, 1.0), Colors.Color(1.0, 1.0, 1.0, 1.0), Colors.Color(1.0, 0.0, 0.0, 1.0)]);
    configurations := AddConfiguration(configurations, "float32 image from uint8 numpy array", NpUInt8, "float32",
      [Colors.Color(0.0, 1.0, 0.0, 1.0), Colors.Color(1.0, 1.0, 1.0, 1.0), Colors.Color(1.0, 0.0, 0.0, 1.0)]);
    configurations := AddConfiguration(configurations, "float32 image from uint16 numpy array", NpUInt16, "float32",
      [Colors.Color(0.0, 1.0, 1.0, 1.0), Colors.Color(1.0, 0.0, 1.0, 1.0), Colors.Color(1.0, 1.0, 0.0, 1.0)]);
  }

  /** `configurations.append(TestConfiguration(len(configurations), ...))`. */
  method AddConfiguration(configurations: seq<TestConfiguration>, title: string, npType: NumpyType, imarisType: string,
                          colorTable: seq<Colors.Color>)
    returns (extended: seq<TestConfiguration>)
    ensures |extended| == |configurations| + 1 && extended[..|configurations|] == configurations
    ensures extended[|configurations|].id == |configurations| && extended[|configurations|].title == title
    ensures extended[|configurations|].npType == npType && extended[|configurations|].imarisType == imarisType
    ensures extended[|configurations|].colorTable == colorTable
  {
    extended := configurations + [TestConfiguration(|configurations|, title, npType, imarisType, colorTable)];
  }

  // ---------------------------------------------------------------------------
  // The band image
  // ---------------------------------------------------------------------------

  /** Where the first band ends: `int(x / 3)`. */
  function FirstBandEnd(width: nat): nat
  {
    width / 3
  }

  /** Where the second band ends: `int(x / 3 * 2)`. */
  function SecondBandEnd(width: nat): nat
  {
    2 * width / 3
  }

  /** The value the band fill gives column `i` of an image `width` columns wide. */
  function Band(i: nat, width: nat): int
  {
    if i < FirstBandEnd(width) then 10 else if i < SecondBandEnd(width) then 130 else 240
  }

  /**
   * The three bands partition the columns in order: the band ends satisfy
   * 0 <= x1 <= x2 <= width, so every column gets exactly one of the three
   * values, and none keeps the zero the array started with.
   */
  lemma BandsPartition(width: nat)
    ensures 0 <= FirstBandEnd(width) <= SecondBandEnd(width) <= width
    ensures forall i :: 0 <= i < width ==> Band(i, width) in {10, 130, 240} && Band(i, width) != 0
    ensures forall i :: 0 <= i < width ==>
      (Band(i, width) == 10 <==> i < FirstBandEnd(width)) &&
      (Band(i, width) == 130 <==> FirstBandEnd(width) <= i < SecondBandEnd(width)) &&
      (Band(i, width) == 240 <==> SecondBandEnd(width) <= i)
  {
  }

  /** The example's own widths: bands [0,200), [200,400) and [400,600). */
  lemma ExampleBands()
    ensures FirstBandEnd(600) == 200 && SecondBandEnd(600) == 400
  {
  }

  /** The array's contents, plane by plane, row by row. */
  function Slices(a: array3<int>): (s: seq<seq<seq<int>>>)
    reads a
    ensures |s| == a.Length0
    ensures forall k :: 0 <= k < a.Length0 ==> |s[k]| == a.Length1
    ensures forall k, j :: 0 <= k < a.Length0 && 0 <= j < a.Length1 ==> |s[k][j]| == a.Length2
    ensures forall k, j, i :: 0 <= k < a.Length0 && 0 <= j < a.Length1 && 0 <= i < a.Length2 ==>
      s[k][j][i] == a[k, j, i]
  {
    seq(a.Length0, k requires 0 <= k < a.Length0 reads a =>
      seq(a.Length1, j requires 0 <= j < a.Length1 reads a =>
        seq(a.Length2, i requires 0 <= i < a.Length2 reads a => a[k, j, i])))
  }

  /**
   * The band fill: `np_data[:, :, 0:x1] = 10`, `[:, :, x1:x2] = 130`,
   * `[:, :, x2:] = 240`, over every plane and row.
   */
  method FillBands(a: array3<int>)
    modifies a
    ensures forall k, j, i :: 0 <= k < a.Length0 && 0 <= j < a.Length1 && 0 <= i < a.Length2 ==>
      a[k, j, i] == Band(i, a.Length2)
  {
    var x1 := FirstBandEnd(a.Length2);
    var x2 := SecondBandEnd(a.Length2);
    BandsPartition(a.Length2);
    forall k, j, i | 0 <= k < a.Length0 && 0 <= j < a.Length1 && 0 <= i < x1 {
      a[k, j, i] := 10;
    }
    forall k, j, i | 0 <= k < a.Length0 && 0 <= j < a.Length1 && x1 <= i < x2 {
      a[k, j, i] := 130;
    }
    forall k, j, i | 0 <= k < a.Length0 && 0 <= j < a.Length1 && x2 <= i < a.Length2 {
      a[k, j, i] := 240;
    }
  }

  /** The band image of the given shape, as `Slices` reads it. */
  function BandImage(depth: nat, height: nat, width: nat): seq<seq<seq<int>>>
  {
    seq(depth, _ => seq(height, _ => seq(width, i requires 0 <= i < width => Band(i, width))))
  }

  // ---------------------------------------------------------------------------
  // `run`
  // ---------------------------------------------------------------------------

  const RunImageSize := Size5D(600, 400, 5, 1, 1)

  /** The image is one block: the loop body runs once, for index (0,0,0,0,0). */
  lemma RunGrid()
    ensures Divide(RunImageSize, RunImageSize) == Ok(Size5D(1, 1, 1, 1, 1))
    ensures Enumerate(Size5D(1, 1, 1, 1, 1)) == [Size5D(0, 0, 0, 0, 0)]
  {
    DivideBySelf(RunImageSize);
    SingleBlockGrid();
  }

  /** The zero-filled array of shape (z, y, x) = (5, 400, 600), with the bands written. */
  method MakeBandData() returns (data: array3<int>)
    ensures fresh(data)
    ensures Slices(data) == BandImage(5, 400, 600)
  {
    data := new int[5, 400, 600]((_, _, _) => 0);
    FillBands(data);
    assert Slices(data) == BandImage(5, 400, 600) by {
      var s, b := Slices(data), BandImage(5, 400, 600);
      forall k | 0 <= k < 5 ensures s[k] == b[k] {
        forall j | 0 <= j < 400 ensures s[k][j] == b[k][j] {
        }
      }
    }
  }

  function RunSections(configuration: TestConfiguration): map<string, map<string, string>>
  {
    map["Image" := map["ImageSizeInMB" := "2400", "Info" := configuration.title],
        Parameters.ChannelSectionName(0) := map["Name" := "My Channel 1"]]
  }

  /** The parameters of `run`: the image size in MB, the configuration's title and a name for channel 0. */
  method RunParameters(configuration: TestConfiguration) returns (parameters: Parameters.Parameters)
    ensures fresh(parameters)
    ensures parameters.sections == RunSections(configuration)
  {
    parameters := new Parameters.Parameters();
    parameters.SetValue("Image", "ImageSizeInMB", Parameters.IntValue(2400));
    parameters.SetValue("Image", "Info", Parameters.TextValue(configuration.title));
    Decimal.TextExamples();
    Parameters.ChannelSectionNamesDistinct(0, 0);
    parameters.SetChannelName(0, "My Channel 1");
  }

  /** The end of `run`: the metadata, `Finish` and `Destroy`. */
  method FinishRun(converter: ImageConverter<seq<seq<seq<int>>>>, configuration: TestConfiguration,
                   today: Calendar.DateTime, defaultColorInfo: Colors.ColorInfo)
    requires converter.state == Open && converter.lastException == None
    modifies converter
    ensures converter.state == Destroyed && converter.copies == old(converter.copies)
    ensures converter.lastException == None
    ensures converter.finished == Some(FinishRecord(ImageExtents(0.0, 0.0, 0.0, 600.0, 400.0, 5.0), RunSections(configuration),
                                                    [today], [Colors.SetColorTable(defaultColorInfo, configuration.colorTable)], true))
  {
    var parameters := RunParameters(configuration);
    var colorInfos := seq(1, _ => defaultColorInfo);
    colorInfos := colorInfos[0 := Colors.SetColorTable(colorInfos[0], configuration.colorTable)];
    assert colorInfos == [Colors.SetColorTable(defaultColorInfo, configuration.colorTable)];
    converter.Finish(ImageExtents(0.0, 0.0, 0.0, 600.0, 400.0, 5.0), parameters, [today], colorInfos, true);
    converter.Destroy();
  }

  /** What `run` leaves behind for a configuration: a converter of its type, finished with its metadata and destroyed. */
  ghost predicate Ran(converter: ImageConverter<seq<seq<seq<int>>>>, configuration: TestConfiguration)
    reads converter
  {
    TypeName(converter.config.sampleType) == configuration.imarisType &&
    converter.state == Destroyed &&
    converter.finished.Some? && converter.finished.value.parameters == RunSections(configuration)
  }

  /** The engine reports an error for the single block copy of a run. */
  predicate CopyFails(needed: Index5D -> bool, reaction: Index5D -> Option<string>)
  {
    needed(Size5D(0, 0, 0, 0, 0)) && reaction(Size5D(0, 0, 0, 0, 0)).Some?
  }

  /**
   * `run`: creates a converter for the configuration's sample type, fills the
   * band image, hands it over as the single block if the engine asks for it,
   * then finishes and destroys the session. An error the engine reports for
   * the copy is raised by the wrapper and ends `run` there, with the session
   * left open.
   */
  method Run(configuration: TestConfiguration, needed: Index5D -> bool, reaction: Index5D -> Option<string>,
             today: Calendar.DateTime, defaultColorInfo: Colors.ColorInfo)
    returns (converter: ImageConverter<seq<seq<seq<int>>>>, completed: bool)
    requires ParseSampleType(configuration.imarisType).Some?
    ensures completed <==> !CopyFails(needed, reaction)
    ensures TypeName(converter.config.sampleType) == configuration.imarisType
    ensures converter.needed == needed && converter.reaction == reaction
    ensures converter.config.imageSize == RunImageSize && converter.config.blockSize == RunImageSize
    ensures converter.config.outputFilename == "PyImarisWriterNumpyExample" + Decimal.IntToText(configuration.id) + ".ims"
    ensures converter.copies ==
      if needed(Size5D(0, 0, 0, 0, 0)) then [(Size5D(0, 0, 0, 0, 0), BandImage(5, 400, 600))] else []
    ensures completed ==> Ran(converter, configuration)
    ensures !completed ==> (converter.state == Open && converter.finished == None &&
                            converter.lastException == reaction(Size5D(0, 0, 0, 0, 0)))
  {
    var imageSize := RunImageSize;
    var dimensionSequence := ["x", "y", "z", "c", "t"];
    var blockSize := imageSize;
    var sampleSize := Size5D(1, 1, 1, 1, 1);
    var outputFilename := "PyImarisWriterNumpyExample" + Decimal.IntToText(configuration.id) + ".ims";
    var options := new Options();
    options.compression := GzipLevel2;

    var npData := MakeBandData();

    var args := ConverterArgs(configuration.imarisType, Some(imageSize), Some(sampleSize), Some(dimensionSequence),
                              Some(blockSize), Some(outputFilename), Some(options),
                              Some("PyImarisWriter"), Some("1.0.0"), CallbackObject(true));
    var created := NewImageConverter<seq<seq<seq<int>>>>(args, needed, reaction);
    converter := created.value;

    RunGrid();
    var numBlocks := Divide(imageSize, blockSize).value;
    completed := CopyNeededBlocks(converter, numBlocks, Slices(npData));
    SingleCopy(converter, needed, Slices(npData), completed);
    if completed {
      FinishRun(converter, configuration, today, defaultColorInfo);
    }
  }

  /** The loops over a one-block grid copy the block if it is needed, and fail exactly when that copy does. */
  lemma SingleCopy<B>(converter: ImageConverter<B>, needed: Index5D -> bool, data: B, completed: bool)
    requires completed ==> CopiedAll(converter, [], Select([Size5D(0, 0, 0, 0, 0)], needed), data)
    requires !completed ==> StoppedEarly(converter, [], Select([Size5D(0, 0, 0, 0, 0)], needed), data)
    ensures completed <==> !(needed(Size5D(0, 0, 0, 0, 0)) && converter.reaction(Size5D(0, 0, 0, 0, 0)).Some?)
    ensures converter.copies == if needed(Size5D(0, 0, 0, 0, 0)) then [(Size5D(0, 0, 0, 0, 0), data)] else []
    ensures !completed ==> converter.lastException == converter.reaction(Size5D(0, 0, 0, 0, 0))
  {
    var zero := Size5D(0, 0, 0, 0, 0);
    SelectSingle(zero, needed);
    if needed(zero) {
      if completed {
        assert zero in [zero];
      } else {
        StoppedAtFirst(converter, [zero], data);
      }
    } else if !completed {
      StoppedAtFirst(converter, [], data);
    }
  }

  lemma SelectSingle(i: Index5D, keep: Index5D -> bool)
    ensures Select([i], keep) == if keep(i) then [i] else []
  {
    SelectSnoc([], i, keep);
    assert [] + [i] == [i];
  }

  /** Stopping early within a plan of at most one block is failing at that block. */
  lemma StoppedAtFirst<B>(converter: ImageConverter<B>, planned: seq<Index5D>, data: B)
    requires |planned| <= 1
    requires StoppedEarly(converter, [], planned, data)
    ensures |planned| == 1 && converter.copies == [(planned[0], data)]
    ensures converter.lastException.Some? && converter.lastException == converter.reaction(planned[0])
  {
    var n := StoppedIndex(converter, [], planned, data);
    assert planned[..n] == planned;
  }

  /**
   * The loop of `main`: runs each configuration in turn, each on a converter
   * of its own, which it leaves finished and destroyed. Each run's session
   * has its own engine answers, `needed(k)` and `reaction(k)` for
   * configuration k. An engine error in a run is raised and ends the loop
   * there, with that run's session left open and the later configurations
   * not run.
   */
  method RunEach(configurations: seq<TestConfiguration>,
                 needed: nat -> Index5D -> bool, reaction: nat -> Index5D -> Option<string>,
                 today: Calendar.DateTime, defaultColorInfo: Colors.ColorInfo)
    returns (converters: seq<ImageConverter<seq<seq<seq<int>>>>>, completed: bool)
    requires forall k :: 0 <= k < |configurations| ==> ParseSampleType(configurations[k].imarisType).Some?
    ensures completed <==> forall k :: 0 <= k < |configurations| ==> !CopyFails(needed(k), reaction(k))
    ensures completed ==> |converters| == |configurations|
    ensures !completed ==> 0 < |converters| <= |configurations|
    ensures forall k :: 0 <= k < |converters| && (completed || k < |converters| - 1) ==>
      Ran(converters[k], configurations[k]) && !CopyFails(needed(k), reaction(k))
    ensures !completed ==> (CopyFails(needed(|converters| - 1), reaction(|converters| - 1)) &&
                            converters[|converters| - 1].state == Open &&
                            converters[|converters| - 1].lastException == reaction(|converters| - 1)(Size5D(0, 0, 0, 0, 0)))
    ensures forall k :: 0 <= k < |converters| ==>
      converters[k].needed == needed(k) && converters[k].reaction == reaction(k) &&
      TypeName(converters[k].config.sampleType) == configurations[k].imarisType
  {
    converters := [];
    completed := true;
    for i := 0 to |configurations|
      invariant completed && |converters| == i
      invariant forall k :: 0 <= k < i ==>
        Ran(converters[k], configurations[k]) && !CopyFails(needed(k), reaction(k)) &&
        converters[k].needed == needed(k) && converters[k].reaction == reaction(k)
    {
      var converter;
      converter, completed := Run(configurations[i], needed(i), reaction(i), today, defaultColorInfo);
      converters := converters + [converter];
      if !completed {
        return;
      }
    }
  }

  /** `main`: the six test configurations, run in turn until one raises. */
  method RunAll(needed: nat -> Index5D -> bool, reaction: nat -> Index5D -> Option<string>,
                today: Calendar.DateTime, defaultColorInfo: Colors.ColorInfo)
    returns (configurations: seq<TestConfiguration>, converters: seq<ImageConverter<seq<seq<seq<int>>>>>, completed: bool)
    ensures |configurations| == 6
    ensures forall i :: 0 <= i < 6 ==> configurations[i].id == i
    ensures forall i :: 0 <= i < 6 ==> |configurations[i].colorTable| == 3
    ensures forall i :: 0 <= i < 6 ==> configurations[i].npType == ArrayTypes[i]
    ensures forall i :: 0 <= i < 6 ==> configurations[i].imarisType == TypeName(ConfigurationTypes[i])
    ensures completed <==> forall k :: 0 <= k < 6 ==> !CopyFails(needed(k), reaction(k))
    ensures completed ==> |converters| == 6
    ensures !completed ==> 0 < |converters| <= 6
    ensures forall k :: 0 <= k < |converters| && (completed || k < |converters| - 1) ==>
      Ran(converters[k], configurations[k]) && !CopyFails(needed(k), reaction(k))
    ensures !completed ==> (CopyFails(needed(|converters| - 1), reaction(|converters| - 1)) &&
                            converters[|converters| - 1].state == Open &&
                            converters[|converters| - 1].lastException == reaction(|converters| - 1)(Size5D(0, 0, 0, 0, 0)))
    ensures forall k :: 0 <= k < |converters| ==>
      converters[k].needed == needed(k) && converters[k].reaction == reaction(k) &&
      converters[k].config.sampleType == ConfigurationTypes[k]
  {
    configurations := GetTestConfigurations();
    forall k | 0 <= k < |configurations|
      ensures ParseSampleType(configurations[k].imarisType).Some?
    {
      ParseSampleTypeRoundTrip(ConfigurationTypes[k]);
    }
    converters, completed := RunEach(configurations, needed, reaction, today, defaultColorInfo);
  }
}
