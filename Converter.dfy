/**
 * `ImageConverter`: checking the constructor's arguments, and the engine
 * session the converter drives. The engine itself is not part of this model;
 * a session stands for it by recording every call handed to it and by two
 * fixed functions, `needed` and `reaction`, for what the engine answers.
 */
module Converter {
  import opened Results
  import opened ImageSize
  import Parameters
  import Calendar
  import Colors

  /** The sample types the converter accepts by name. */
  datatype SampleType = UInt8 | UInt16 | UInt32 | Float32

  function TypeName(t: SampleType): string
  {
    match t
    case UInt8 => "uint8"
    case UInt16 => "uint16"
    case UInt32 => "uint32"
    case Float32 => "float32"
  }

  /** The datatype argument, by name; any other name is refused. */
  function ParseSampleType(name: string): (r: Option<SampleType>)
    ensures r.Some? <==> exists t :: TypeName(t) == name
    ensures r.Some? ==> TypeName(r.value) == name
  {
    if name == "uint8" then assert TypeName(UInt8) == name; Some(UInt8)
    else if name == "uint16" then assert TypeName(UInt16) == name; Some(UInt16)
    else if name == "uint32" then assert TypeName(UInt32) == name; Some(UInt32)
    else if name == "float32" then assert TypeName(Float32) == name; Some(Float32)
    else
      assert forall t :: TypeName(t) != name;
      None
  }

  lemma ParseSampleTypeRoundTrip(t: SampleType)
    ensures ParseSampleType(TypeName(t)) == Some(t)
  {
  }

  lemma SometypeIsRefused()
    ensures ParseSampleType("sometype") == None
  {
  }

  datatype Compression = NoCompression | GzipLevel2 | OtherCompression(code: int)

  /** The writer options; only the compression setting is modelled. */
  class Options {
    var compression: Compression

    /** A new set of options compresses with gzip at level 2. */
    constructor ()
      ensures compression == GzipLevel2
    {
      compression := GzipLevel2;
    }
  }

  /** The progress callback argument: absent, or an object with or without `RecordProgress`. */
  datatype ProgressTarget = NoCallback | CallbackObject(hasRecordProgress: bool)

  /** The constructor's arguments as the caller passes them; `None` stands for Python's `None`. */
  datatype ConverterArgs = ConverterArgs(
    datatypeName: string,
    imageSize: Option<Size5D>,
    sampleSize: Option<Size5D>,
    dimensionSequence: Option<seq<string>>,
    blockSize: Option<Size5D>,
    outputFilename: Option<string>,
    options: Option<Options>,
    applicationName: Option<string>,
    applicationVersion: Option<string>,
    callback: ProgressTarget)

  /** The checked arguments a session is created from. */
  datatype ConverterConfig = ConverterConfig(
    sampleType: SampleType,
    imageSize: Size5D,
    sampleSize: Size5D,
    dimensionSequence: seq<string>,
    blockSize: Size5D,
    outputFilename: string,
    options: Options,
    applicationName: string,
    applicationVersion: string)

  datatype ConstructionError = UnknownDatatype | MissingArgument(name: string) | MissingRecordProgress

  /** The constructor's optional parameters, in their order in its signature. */
  const ArgumentNames: seq<string> := ["image_size", "sample_size", "dimension_sequence", "block_size",
                                       "output_filename", "options", "application_name", "application_version"]

  /** No two parameters share a name: each differs from the others in its first letter or its length. */
  lemma ArgumentNamesDistinct()
    ensures forall i, j :: 0 <= i < j < |ArgumentNames| ==> ArgumentNames[i] != ArgumentNames[j]
  {
    forall i, j | 0 <= i < j < |ArgumentNames|
      ensures ArgumentNames[i] != ArgumentNames[j]
    {
      assert ArgumentNames[i][0] != ArgumentNames[j][0] || |ArgumentNames[i]| != |ArgumentNames[j]|;
    }
  }

  /** Whether the parameter named `ArgumentNames[i]` was supplied. */
  predicate Supplied(a: ConverterArgs, i: nat)
  {
    if i == 0 then a.imageSize.Some?
    else if i == 1 then a.sampleSize.Some?
    else if i == 2 then a.dimensionSequence.Some?
    else if i == 3 then a.blockSize.Some?
    else if i == 4 then a.outputFilename.Some?
    else if i == 5 then a.options.Some?
    else if i == 6 then a.applicationName.Some?
    else a.applicationVersion.Some?
  }

  predicate AllSupplied(a: ConverterArgs)
  {
    a.imageSize.Some? && a.sampleSize.Some? && a.dimensionSequence.Some? && a.blockSize.Some? &&
    a.outputFilename.Some? && a.options.Some? && a.applicationName.Some? && a.applicationVersion.Some?
  }

  lemma AllSuppliedIndexwise(a: ConverterArgs)
    ensures AllSupplied(a) <==> forall i :: 0 <= i < |ArgumentNames| ==> Supplied(a, i)
  {
    assert AllSupplied(a) <==>
      Supplied(a, 0) && Supplied(a, 1) && Supplied(a, 2) && Supplied(a, 3) &&
      Supplied(a, 4) && Supplied(a, 5) && Supplied(a, 6) && Supplied(a, 7);
  }

  /** The position of the first parameter from `from` on that was not supplied, or the count of parameters. */
  function FirstMissing(a: ConverterArgs, from: nat): (k: nat)
    requires from <= |ArgumentNames|
    decreases |ArgumentNames| - from
    ensures from <= k <= |ArgumentNames|
    ensures k < |ArgumentNames| ==> !Supplied(a, k)
    ensures forall j :: from <= j < k ==> Supplied(a, j)
  {
    if from == |ArgumentNames| || !Supplied(a, from) then from else FirstMissing(a, from + 1)
  }

  /**
   * The constructor's checks: a known datatype name, every argument supplied,
   * and a callback object that has `RecordProgress`. An unknown datatype is
   * reported first; a missing argument is reported by its name.
   */
  function ValidateArgs(a: ConverterArgs): (r: Result<ConverterConfig, ConstructionError>)
    ensures r.Ok? <==>
      ParseSampleType(a.datatypeName).Some? && AllSupplied(a) && a.callback == CallbackObject(true)
    ensures r == Err(UnknownDatatype) <==> ParseSampleType(a.datatypeName).None?
    ensures r == Err(MissingRecordProgress) <==>
      ParseSampleType(a.datatypeName).Some? && AllSupplied(a) && a.callback != CallbackObject(true)
    ensures ParseSampleType(a.datatypeName).Some? && !AllSupplied(a) ==>
      FirstMissing(a, 0) < |ArgumentNames| && r == Err(MissingArgument(ArgumentNames[FirstMissing(a, 0)]))
    ensures r.Ok? ==>
      TypeName(r.value.sampleType) == a.datatypeName &&
      Some(r.value.imageSize) == a.imageSize && Some(r.value.sampleSize) == a.sampleSize &&
      Some(r.value.dimensionSequence) == a.dimensionSequence && Some(r.value.blockSize) == a.blockSize &&
      Some(r.value.outputFilename) == a.outputFilename && Some(r.value.options) == a.options &&
      Some(r.value.applicationName) == a.applicationName &&
      Some(r.value.applicationVersion) == a.applicationVersion
  {
    AllSuppliedIndexwise(a);
    match ParseSampleType(a.datatypeName)
    case None => Err(UnknownDatatype)
    case Some(t) =>
      var missing := FirstMissing(a, 0);
      if missing < |ArgumentNames| then Err(MissingArgument(ArgumentNames[missing]))
      else if a.callback != CallbackObject(true) then Err(MissingRecordProgress)
      else Ok(ConverterConfig(t, a.imageSize.value, a.sampleSize.value, a.dimensionSequence.value,
                              a.blockSize.value, a.outputFilename.value, a.options.value,
                              a.applicationName.value, a.applicationVersion.value))
  }

  /**
   * The unit test's sequence of constructions, up to the callback: starting
   * from all arguments `None` and an unknown datatype, each step supplies one
   * more argument and is still refused, each time for the first parameter in
   * the signature that is still missing. The test uses `uint8` and particular
   * sizes; this holds for any known type and any values.
   */
  lemma ConstructionRefusesMissing(t: SampleType, imageSize: Size5D, sampleSize: Size5D,
                                   dimensionSequence: seq<string>, blockSize: Size5D, options: Options)
    ensures
      var typed := ConverterArgs(TypeName(t), None, None, None, None, None, None, None, None, NoCallback);
      var s1 := typed.(imageSize := Some(imageSize));
      var s2 := s1.(sampleSize := Some(sampleSize));
      var s3 := s2.(dimensionSequence := Some(dimensionSequence));
      var s4 := s3.(blockSize := Some(blockSize));
      var s5 := s4.(options := Some(options));
      ValidateArgs(typed.(datatypeName := "sometype")) == Err(UnknownDatatype) &&
      ValidateArgs(typed) == Err(MissingArgument("image_size")) &&
      ValidateArgs(s1) == Err(MissingArgument("sample_size")) &&
      ValidateArgs(s2) == Err(MissingArgument("dimension_sequence")) &&
      ValidateArgs(s3) == Err(MissingArgument("block_size")) &&
      ValidateArgs(s4) == Err(MissingArgument("output_filename")) &&
      ValidateArgs(s5) == Err(MissingArgument("output_filename"))
  {
    ParseSampleTypeRoundTrip(t);
    var typed := ConverterArgs(TypeName(t), None, None, None, None, None, None, None, None, NoCallback);
    var s1 := typed.(imageSize := Some(imageSize));
    var s2 := s1.(sampleSize := Some(sampleSize));
    var s3 := s2.(dimensionSequence := Some(dimensionSequence));
    var s4 := s3.(blockSize := Some(blockSize));
    var s5 := s4.(options := Some(options));
    FirstMissingReported(typed, 0);
    FirstMissingReported(s1, 1);
    FirstMissingReported(s2, 2);
    FirstMissingReported(s3, 3);
    FirstMissingReported(s4, 4);
    FirstMissingReported(s5, 4);
  }

  /** The argument `ValidateArgs` names when parameter `i` is the first one missing. */
  lemma FirstMissingReported(a: ConverterArgs, i: nat)
    requires i < |ArgumentNames|
    requires ParseSampleType(a.datatypeName).Some? && !Supplied(a, i)
    requires forall j :: 0 <= j < i ==> Supplied(a, j)
    ensures ValidateArgs(a) == Err(MissingArgument(ArgumentNames[i]))
  {
    AllSuppliedIndexwise(a);
  }

  /**
   * A construction is refused for the argument named `ArgumentNames[i]`
   * exactly when the type is known, parameter `i` was not supplied, and every
   * parameter before it in the signature was.
   */
  lemma MissingArgumentNamed(a: ConverterArgs)
    ensures forall i :: 0 <= i < |ArgumentNames| ==>
      (ValidateArgs(a) == Err(MissingArgument(ArgumentNames[i])) <==>
        ParseSampleType(a.datatypeName).Some? && !Supplied(a, i) && forall j :: 0 <= j < i ==> Supplied(a, j))
  {
    ArgumentNamesDistinct();
    AllSuppliedIndexwise(a);
  }

  /**
   * The end of the unit test's sequence: with every argument supplied, the
   * construction is refused without a callback and with a callback lacking
   * `RecordProgress`, and accepted once `RecordProgress` is there.
   */
  lemma ConstructionNeedsRecordProgress(options: Options)
    ensures
      var s6 := ConverterArgs("uint8", Some(Size5D(2048, 2048, 100, 3, 1)), Some(Size5D(1, 1, 1, 1, 1)),
                              Some(["x", "y", "z", "c", "t"]), Some(Size5D(512, 512, 1, 1, 1)),
                              Some("PyImarisWriterTest.ims"), Some(options),
                              Some("UnitTestPyImarisWriter"), Some("0"), NoCallback);
      ValidateArgs(s6) == Err(MissingRecordProgress) &&
      ValidateArgs(s6.(callback := CallbackObject(false))) == Err(MissingRecordProgress) &&
      ValidateArgs(s6.(callback := CallbackObject(true))).Ok?
  {
    assert ParseSampleType("uint8") == Some(UInt8);
  }

  /** Where a session stands: writing blocks, finished, or destroyed. */
  datatype Lifecycle = Open | Finished | Destroyed

  /** The physical extent of the image; the examples pass whole or decimal numbers. */
  datatype ImageExtents = ImageExtents(minX: real, minY: real, minZ: real, maxX: real, maxY: real, maxZ: real)

  /** What `Finish` hands to the engine. */
  datatype FinishRecord = FinishRecord(
    extents: ImageExtents,
    parameters: map<string, map<string, string>>,
    timeInfos: seq<Calendar.DateTime>,
    colorInfos: seq<Colors.ColorInfo>,
    adjustColorRange: bool)

  /**
   * An engine session writing one file. `copies` records every block handed
   * to `CopyBlock`, in order; `lastException` is the engine's last error,
   * which stays set once an error has occurred.
   */
  class ImageConverter<Block> {
    const config: ConverterConfig
    /** The engine's answer to `NeedCopyBlock`. */
    const needed: Index5D -> bool
    /** The error, if any, the engine reports for a block copy. */
    const reaction: Index5D -> Option<string>

    var copies: seq<(Index5D, Block)>
    var lastException: Option<string>
    var state: Lifecycle
    var finished: Option<FinishRecord>

    constructor (config: ConverterConfig, needed: Index5D -> bool, reaction: Index5D -> Option<string>)
      ensures this.config == config && this.needed == needed && this.reaction == reaction
      ensures copies == [] && lastException == None && state == Open && finished == None
    {
      this.config := config;
      this.needed := needed;
      this.reaction := reaction;
      copies := [];
      lastException := None;
      state := Open;
      finished := None;
    }

    /** Whether the engine still needs the block at `index`. */
    predicate NeedCopyBlock(index: Index5D)
    {
      needed(index)
    }

    /**
     * Hands one block to the engine, which records the error, if any, that
     * the copy caused. A session with an error is not given further blocks.
     */
    method CopyBlock(data: Block, index: Index5D)
      requires state == Open && lastException == None
      modifies this
      ensures copies == old(copies) + [(index, data)]
      ensures lastException == reaction(index)
      ensures state == Open && finished == old(finished)
    {
      copies := copies + [(index, data)];
      lastException := reaction(index);
    }

    function GetLastException(): Option<string>
      reads this
    {
      lastException
    }

    /**
     * Writes the metadata and closes the file; no block is copied afterwards.
     * A session with an engine error is not finished.
     */
    method Finish(extents: ImageExtents, parameters: Parameters.Parameters, timeInfos: seq<Calendar.DateTime>,
                  colorInfos: seq<Colors.ColorInfo>, adjustColorRange: bool)
      requires state == Open && lastException == None
      modifies this
      ensures state == Finished
      ensures finished == Some(FinishRecord(extents, parameters.sections, timeInfos, colorInfos, adjustColorRange))
      ensures copies == old(copies) && lastException == old(lastException)
    {
      state := Finished;
      finished := Some(FinishRecord(extents, parameters.sections, timeInfos, colorInfos, adjustColorRange));
    }

    /** Releases the session, once. */
    method Destroy()
      requires state != Destroyed
      modifies this
      ensures state == Destroyed
      ensures copies == old(copies) && lastException == old(lastException) && finished == old(finished)
    {
      state := Destroyed;
    }
  }

  /**
   * The constructor: refused exactly when the checks refuse the arguments,
   * otherwise a new open session with nothing copied and no error.
   */
  method NewImageConverter<Block>(args: ConverterArgs, needed: Index5D -> bool, reaction: Index5D -> Option<string>)
    returns (r: Result<ImageConverter<Block>, ConstructionError>)
    ensures r.Ok? <==> ValidateArgs(args).Ok?
    ensures r.Err? ==> r.error == ValidateArgs(args).error
    ensures r.Ok? ==> (fresh(r.value) && r.value.config == ValidateArgs(args).value &&
      r.value.needed == needed && r.value.reaction == reaction &&
      r.value.copies == [] && r.value.lastException == None && r.value.state == Open && r.value.finished == None)
  {
    match ValidateArgs(args)
    case Err(e) => r := Err(e);
    case Ok(config) =>
      var converter := new ImageConverter(config, needed, reaction);
      r := Ok(converter);
  }
}
