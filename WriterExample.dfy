/**
 * The example program that writes a 512 x 512 x 32 image of three channels
 * and four time points, one z plane per block, with a ramp buffer.
 */
module WriterExample {
  import opened Results
  import opened ImageSize
  import opened BlockGrid
  import opened Converter
  import opened BlockCopy
  import Parameters
  import Calendar
  import Colors
  import Decimal

  const ExampleImageSize := Size5D(512, 512, 32, 3, 4)
  const ExampleBlockSize := Size5D(512, 512, 1, 1, 1)

  const ExampleGrid := Size5D(1, 1, 32, 3, 4)

  /** The example's grid: one block per z plane, channel and time point. */
  lemma ExampleDivision()
    ensures Divide(ExampleImageSize, ExampleBlockSize) == Ok(ExampleGrid)
  {
  }

  /** One block holds 512 x 512 voxels. */
  lemma ExampleBlockVolume()
    ensures Volume(ExampleBlockSize) == 512 * 512
  {
  }

  /** The example's loop visits 384 block indices. */
  lemma ExampleGridSize()
    ensures |Enumerate(ExampleGrid)| == 384
  {
    EnumerateExactlyOnce(ExampleGrid);
  }

  function ExampleSections(): map<string, map<string, string>>
  {
    map["Image" := map["ImageSizeInMB" := "2400"], Parameters.ChannelSectionName(0) := map["Name" := "My Channel 1"]]
  }

  /** The example's parameters: the image size in MB, and a name for channel 0. */
  method ExampleParameters() returns (parameters: Parameters.Parameters)
    ensures fresh(parameters)
    ensures parameters.sections == ExampleSections()
  {
    parameters := new Parameters.Parameters();
    parameters.SetValue("Image", "ImageSizeInMB", Parameters.IntValue(2400));
    Decimal.TextExamples();
    Parameters.ChannelSectionNamesDistinct(0, 0);
    parameters.SetChannelName(0, "My Channel 1");
  }

  /** What `main` hands to `Finish`: fixed extents, the example's parameters, one time point, a colour per channel. */
  function ExampleFinishRecord(today: Calendar.DateTime, defaultColorInfo: Colors.ColorInfo, numChannels: nat): FinishRecord
    requires numChannels >= 3
  {
    FinishRecord(ImageExtents(0.0, 0.0, 0.0, 10.0, 10.0, 10.0), ExampleSections(),
                 [today], Colors.ExampleColorInfos(defaultColorInfo, numChannels), true)
  }

  /**
   * `main`: creates the converter, copies every block the engine asks for
   * with the same ramp buffer, then finishes with the example's metadata and
   * destroys the session. The engine's answers are the parameters `needed`
   * and `reaction`; the wall-clock time stamp is the parameter `today`.
   * The image and block sizes that `main` fixes (`ExampleImageSize`,
   * `ExampleBlockSize`) are the parameters `imageSize` and `blockSize`.
   * An error the engine reports for a copy is raised by the wrapper and ends
   * the program there, with the session neither finished nor destroyed.
   */
  method RunExample(imageSize: Size5D, blockSize: Size5D, needed: Index5D -> bool, reaction: Index5D -> Option<string>,
                    today: Calendar.DateTime, defaultColorInfo: Colors.ColorInfo)
    returns (converter: ImageConverter<seq<int>>, completed: bool)
    requires AllPositive(blockSize) && imageSize.c >= 3
    ensures fresh(converter)
    ensures converter.needed == needed && converter.reaction == reaction
    ensures converter.config.sampleType == UInt16
    ensures converter.config.imageSize == imageSize && converter.config.blockSize == blockSize
    ensures completed ==>
      CopiedAll(converter, [], Select(Enumerate(Divide(imageSize, blockSize).value), needed), Ramp(Volume(blockSize))) &&
      converter.state == Destroyed &&
      converter.finished == Some(ExampleFinishRecord(today, defaultColorInfo, imageSize.c))
    ensures !completed ==>
      StoppedEarly(converter, [], Select(Enumerate(Divide(imageSize, blockSize).value), needed), Ramp(Volume(blockSize))) &&
      converter.state == Open && converter.finished == None
  {
    converter, completed := CopyExampleBlocks(imageSize, blockSize, needed, reaction);
    if completed {
      FinishExample(converter, today, defaultColorInfo);
    }
  }

  /** The block loop of `main`, on a new converter, with the ramp buffer. */
  method CopyExampleBlocks(imageSize: Size5D, blockSize: Size5D, needed: Index5D -> bool,
                           reaction: Index5D -> Option<string>)
    returns (converter: ImageConverter<seq<int>>, completed: bool)
    requires AllPositive(blockSize)
    ensures fresh(converter)
    ensures converter.config.sampleType == UInt16
    ensures converter.config.imageSize == imageSize && converter.config.blockSize == blockSize
    ensures converter.needed == needed && converter.reaction == reaction
    ensures completed ==>
      CopiedAll(converter, [], Select(Enumerate(Divide(imageSize, blockSize).value), needed), Ramp(Volume(blockSize)))
    ensures !completed ==>
      StoppedEarly(converter, [], Select(Enumerate(Divide(imageSize, blockSize).value), needed), Ramp(Volume(blockSize)))
    ensures converter.state == Open && converter.finished == None
  {
    converter := CreateExampleConverter(imageSize, blockSize, needed, reaction);
    var voxelData := ExampleVoxelData(blockSize);
    var numBlocks := Divide(imageSize, blockSize).value;
    completed := CopyNeededBlocks(converter, numBlocks, voxelData);
  }

  /** The start of `main`: the converter for 16-bit samples, with all arguments supplied. */
  method CreateExampleConverter(imageSize: Size5D, blockSize: Size5D, needed: Index5D -> bool,
                                reaction: Index5D -> Option<string>)
    returns (converter: ImageConverter<seq<int>>)
    ensures fresh(converter)
    ensures converter.config.sampleType == UInt16
    ensures converter.config.imageSize == imageSize && converter.config.blockSize == blockSize
    ensures converter.needed == needed && converter.reaction == reaction
    ensures converter.copies == [] && converter.lastException == None
    ensures converter.state == Open && converter.finished == None
  {
    var dimensionSequence := ["x", "y", "z", "c", "t"];
    var sampleSize := Size5D(1, 1, 1, 1, 1);
    var options := new Options();
    options.compression := GzipLevel2;
    var args := ConverterArgs("uint16", Some(imageSize), Some(sampleSize), Some(dimensionSequence), Some(blockSize),
                              Some("PyImarisWriterTest.ims"), Some(options), Some("PyImarisWriter"), Some("1.0.0"),
                              CallbackObject(true));
    assert ParseSampleType("uint16") == Some(UInt16);
    var created := NewImageConverter<seq<int>>(args, needed, reaction);
    converter := created.value;
  }

  /** The example's buffer: one block's worth of voxels holding the ramp `i % 256`. */
  method ExampleVoxelData(blockSize: Size5D) returns (data: seq<int>)
    ensures data == Ramp(Volume(blockSize))
  {
    var numVoxelsPerBlock := blockSize.x * blockSize.y * blockSize.z * blockSize.c * blockSize.t;
    var voxelData := FillRamp(numVoxelsPerBlock);
    data := voxelData[..];
  }

  /** The end of `main`: the metadata, `Finish` and `Destroy`. */
  method FinishExample(converter: ImageConverter<seq<int>>, today: Calendar.DateTime, defaultColorInfo: Colors.ColorInfo)
    requires converter.state == Open && converter.lastException == None
    requires converter.config.imageSize.c >= 3
    modifies converter
    ensures converter.state == Destroyed && converter.copies == old(converter.copies)
    ensures converter.lastException == None
    ensures converter.finished == Some(ExampleFinishRecord(today, defaultColorInfo, converter.config.imageSize.c))
  {
    var parameters := ExampleParameters();
    var colorInfos := Colors.ExampleColorInfos(defaultColorInfo, converter.config.imageSize.c);
    var extents := ImageExtents(0.0, 0.0, 0.0, 10.0, 10.0, 10.0);
    converter.Finish(extents, parameters, [today], colorInfos, true);
    converter.Destroy();
  }
}
