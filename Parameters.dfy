/**
 * Free-form metadata: sections of key/value pairs, every value kept as text.
 * `Parameters` is the Python wrapper's dictionary-of-dictionaries; the rest of
 * the module is the C test program's fixed parameter array.
 */
module Parameters {
  import opened Results
  import Decimal

  /** What a caller may pass to `set_value`: text, or a number written out with `str`. */
  datatype ParamValue = TextValue(text: string) | IntValue(n: int)

  /** The stored form of a value. Numbers become their decimal text and read back unchanged. */
  function ToText(v: ParamValue): (s: string)
    ensures v.TextValue? ==> s == v.text
    ensures v.IntValue? ==> Decimal.ParseInt(s) == Some(v.n)
  {
    match v
    case TextValue(text) => text
    case IntValue(n) => Decimal.IntToTextRoundTrip(n); Decimal.IntToText(n)
  }

  function ChannelSectionName(channel: int): string
  {
    "Channel " + Decimal.IntToText(channel)
  }

  /** Different channels get different sections, and none of them is `Image`. */
  lemma ChannelSectionNamesDistinct(a: int, b: int)
    ensures a != b ==> ChannelSectionName(a) != ChannelSectionName(b)
    ensures ChannelSectionName(a) != "Image"
  {
    var p := "Channel ";
    if ChannelSectionName(a) == ChannelSectionName(b) {
      assert ChannelSectionName(a)[|p|..] == Decimal.IntToText(a);
      assert ChannelSectionName(b)[|p|..] == Decimal.IntToText(b);
      Decimal.IntToTextInjective(a, b);
    }
    assert ChannelSectionName(a)[0] == 'C';
  }

  class Parameters {
    /** Section name -> key -> text. */
    var sections: map<string, map<string, string>>

    constructor ()
      ensures sections == map[]
    {
      sections := map[];
    }

    /** The text stored under `key` in `section`, if any. */
    function Get(section: string, key: string): Option<string>
      reads this
    {
      if section in sections && key in sections[section] then Some(sections[section][key]) else None
    }

    /** The section as it stands, empty if it does not exist yet. */
    function Section(section: string): map<string, string>
      reads this
    {
      if section in sections then sections[section] else map[]
    }

    /** `set_value`: creates the section and the key as needed and stores the value as text. */
    method SetValue(section: string, key: string, value: ParamValue)
      modifies this
      ensures sections == old(sections)[section := old(Section(section))[key := ToText(value)]]
      ensures Get(section, key) == Some(ToText(value))
      ensures forall s, k :: s != section || k != key ==> Get(s, k) == old(Get(s, k))
    {
      sections := sections[section := Section(section)[key := ToText(value)]];
    }

    /** `set_channel_name`: the display name goes under key `Name` of section `Channel <n>`. */
    method SetChannelName(channel: int, name: string)
      modifies this
      ensures sections == old(sections)[ChannelSectionName(channel) := old(Section(ChannelSectionName(channel)))["Name" := name]]
      ensures Get(ChannelSectionName(channel), "Name") == Some(name)
      ensures forall s, k :: s != ChannelSectionName(channel) || k != "Name" ==> Get(s, k) == old(Get(s, k))
    {
      SetValue(ChannelSectionName(channel), "Name", TextValue(name));
    }
  }

  /** The unit test: 2400 stored under Image / ImageSizeInMB reads back as the text "2400". */
  method ImageSizeInMBExample() returns (p: Parameters)
    ensures p.sections == map["Image" := map["ImageSizeInMB" := "2400"]]
    ensures p.Get("Image", "ImageSizeInMB") == Some("2400")
  {
    p := new Parameters();
    p.SetValue("Image", "ImageSizeInMB", IntValue(2400));
    Decimal.TextExamples();
  }

  // ---------------------------------------------------------------------------
  // The C test program's parameter array
  // ---------------------------------------------------------------------------

  datatype Parameter = Parameter(name: string, value: string)

  datatype ParameterSection = ParameterSection(name: string, values: seq<Parameter>)

  /** `get_channel_name`: the first three channels are named, the rest share one name. */
  function ChannelName(channelIndex: int): (name: string)
    ensures name == "Other channel" <==> !(0 <= channelIndex < 3)
    ensures 0 <= channelIndex < 3 ==> name == ["First", "Second", "Third"][channelIndex] + " channel"
  {
    if channelIndex == 0 then "First channel"
    else if channelIndex == 1 then "Second channel"
    else if channelIndex == 2 then "Third channel"
    else "Other channel"
  }

  /** The section `get_parameters` writes for channel `c`. */
  function ChannelSection(c: int): ParameterSection
  {
    ParameterSection(ChannelSectionName(c), [Parameter("Name", ChannelName(c)),
                                             Parameter("LSMEmissionWavelength", "700"),
                                             Parameter("OtherChannelParameter", "OtherChannelValue")])
  }

  /**
   * `get_parameters`: section 0 is `Image` with the unit, then one section per
   * channel with its name, its emission wavelength and one further pair.
   */
  method GetParameters(numChannels: nat) returns (sections: array<ParameterSection>)
    ensures sections.Length == 1 + numChannels
    ensures sections[0] == ParameterSection("Image", [Parameter("Unit", "um")])
    ensures forall c :: 0 <= c < numChannels ==> sections[1 + c] == ChannelSection(c)
  {
    var numberOfOtherSections := 1;
    sections := new ParameterSection[numberOfOtherSections + numChannels];
    sections[0] := ParameterSection("Image", [Parameter("Unit", "um")]);
    for c := 0 to numChannels
      invariant sections[0] == ParameterSection("Image", [Parameter("Unit", "um")])
      invariant forall j :: 0 <= j < c ==> sections[1 + j] == ChannelSection(j)
    {
      var section := MakeChannelSection(c);
      sections[numberOfOtherSections + c] := section;
    }
  }

  /** The body of `get_parameters`' channel loop: one channel's section. */
  method MakeChannelSection(c: int) returns (section: ParameterSection)
    ensures section == ChannelSection(c)
  {
    var nameParameter := Parameter("Name", ChannelName(c));
    Decimal.TextExamples();
    var emissionParameter := Parameter("LSMEmissionWavelength", Decimal.IntToText(700));
    var otherParameter := Parameter("OtherChannelParameter", "OtherChannelValue");
    section := ParameterSection(ChannelSectionName(c), [nameParameter, emissionParameter, otherParameter]);
  }
}
