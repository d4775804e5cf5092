/** The device-model part of `Platform`: the `Model` enumeration with its
    display strings, the machine identifier built from the `utsname.machine`
    bytes, and the table from identifiers to models behind `Platform.device`. */
module Platform {
  import opened Events

  /** `Platform.Model`, one constructor per case. */
  datatype Model =
      simulator
    | iPod1
    | iPod2
    | iPod3
    | iPod4
    | iPod5
    | iPod6
    | iPod7
    | iPad2
    | iPad3
    | iPad4
    | iPad6
    | iPad7
    | iPhone4
    | iPhone4S
    | iPhone5
    | iPhone5S
    | iPhone5C
    | iPadMini1
    | iPadMini2
    | iPadMini3
    | iPadMini4
    | iPadMini5
    | iPadAir1
    | iPadAir2
    | iPadAir2Cell
    | iPadAir3
    | iPadPro97
    | iPadPro97Cell
    | iPadPro105
    | iPadPro105Cell
    | iPadPro11
    | iPadPro11Cell
    | iPadPro11Gen2
    | iPadPro11CellGen2
    | iPadPro129
    | iPadPro129Cell
    | iPadPro129Gen2
    | iPadPro129CellGen2
    | iPadPro129Gen3
    | iPadPro129CellGen3
    | iPadPro129Gen4
    | iPadPro129CellGen4
    | iPadPro129Gen3_1TbOrMacM1
    | iPhone6
    | iPhone6Plus
    | iPhone6S
    | iPhone6SPlus
    | iPhoneSE
    | iPhoneSEGen2
    | iPhone7
    | iPhone7Plus
    | iPhone8
    | iPhone8Plus
    | iPhoneX
    | iPhoneXs
    | iPhoneXsMax
    | iPhoneXr
    | iPhone11
    | iPhone11Pro
    | iPhone11ProMax
    | iPhone12Mini
    | iPhone12
    | iPhone12Pro
    | iPhone12ProMax
    | unrecognized

  /** The raw value (display string) of each model. Only the fallback model
      is displayed as "Unrecognized". */
  function RawValue(m: Model): (r: string)
    ensures r == "Unrecognized" <==> m == unrecognized
  {
    match m
    case simulator => "simulator/sandbox"
    case iPod1 => "iPod 1"
    case iPod2 => "iPod 2"
    case iPod3 => "iPod 3"
    case iPod4 => "iPod 4"
    case iPod5 => "iPod 5"
    case iPod6 => "iPod 6"
    case iPod7 => "iPod 7"
    case iPad2 => "iPad 2"
    case iPad3 => "iPad 3"
    case iPad4 => "iPad 4"
    case iPad6 => "iPad 6"
    case iPad7 => "iPad 7"
    case iPhone4 => "iPhone 4"
    case iPhone4S => "iPhone 4S"
    case iPhone5 => "iPhone 5"
    case iPhone5S => "iPhone 5S"
    case iPhone5C => "iPhone 5C"
    case iPadMini1 => "iPad Mini 1"
    case iPadMini2 => "iPad Mini 2"
    case iPadMini3 => "iPad Mini 3"
    case iPadMini4 => "iPad Mini 4"
    case iPadMini5 => "iPad Mini 5"
    case iPadAir1 => "iPad Air 1"
    case iPadAir2 => "iPad Air 2"
    case iPadAir2Cell => "iPad Air 2 cellular"
    case iPadAir3 => "iPad Air 3"
    case iPadPro97 => "iPad Pro 9.7\""
    case iPadPro97Cell => "iPad Pro 9.7\" cellular"
    case iPadPro105 => "iPad Pro 10.5\""
    case iPadPro105Cell => "iPad Pro 10.5\" cellular"
    case iPadPro11 => "iPad Pro 11\""
    case iPadPro11Cell => "iPad Pro 11\" cellular"
    case iPadPro11Gen2 => "iPad Pro 11\" (2nd gen)"
    case iPadPro11CellGen2 => "iPad Pro 11\" cellular (2nd gen)"
    case iPadPro129 => "iPad Pro 12.9\""
    case iPadPro129Cell => "iPad Pro 12.9\" cellular"
    case iPadPro129Gen2 => "iPad Pro 12.9\" (2nd gen)"
    case iPadPro129CellGen2 => "iPad Pro 12.9\" cellular (2nd gen)"
    case iPadPro129Gen3 => "iPad Pro 12.9\" (3rd gen)"
    case iPadPro129CellGen3 => "iPad Pro 12.9\" cellular (3rd gen)"
    case iPadPro129Gen4 => "iPad Pro 12.9\" (4th gen)"
    case iPadPro129CellGen4 => "iPad Pro 12.9\" cellular (4th gen)"
    case iPadPro129Gen3_1TbOrMacM1 => "iPad Pro 12.9-inch 1TB (3rd gen) OR Mac with M1"
    case iPhone6 => "iPhone 6"
    case iPhone6Plus => "iPhone 6 Plus"
    case iPhone6S => "iPhone 6S"
    case iPhone6SPlus => "iPhone 6S Plus"
    case iPhoneSE => "iPhone SE"
    case iPhoneSEGen2 => "iPhone SE (2nd gen)"
    case iPhone7 => "iPhone 7"
    case iPhone7Plus => "iPhone 7 Plus"
    case iPhone8 => "iPhone 8"
    case iPhone8Plus => "iPhone 8 Plus"
    case iPhoneX => "iPhone X"
    case iPhoneXs => "iPhone Xs"
    case iPhoneXsMax => "iPhone Xs Max"
    case iPhoneXr => "iPhone Xr"
    case iPhone11 => "iPhone 11"
    case iPhone11Pro => "iPhone 11 Pro"
    case iPhone11ProMax => "iPhone 11 Pro Max"
    case iPhone12Mini => "iPhone 12 mini"
    case iPhone12 => "iPhone 12"
    case iPhone12Pro => "iPhone 12 Pro"
    case iPhone12ProMax => "iPhone 12 Pro Max"
    case unrecognized => "Unrecognized"
  }

  /** The `modelMap` dictionary: the model an Apple machine identifier stands
      for. Its patterns are the dictionary's keys, so no key occurs twice.
      No identifier in the table stands for the fallback model. */
  function ModelMapLookup(code: string): (r: Option<Model>)
    ensures r != Some(unrecognized)
  {
    match code
    case "i386" => Some(simulator)
    case "x86_64" => Some(simulator)
    case "iPod1,1" => Some(iPod1)
    case "iPod2,1" => Some(iPod2)
    case "iPod3,1" => Some(iPod3)
    case "iPod4,1" => Some(iPod4)
    case "iPod5,1" => Some(iPod5)
    case "iPod7,1" => Some(iPod6)
    case "iPod9,1" => Some(iPod7)
    case "iPad2,1" => Some(iPad2)
    case "iPad2,2" => Some(iPad2)
    case "iPad2,3" => Some(iPad2)
    case "iPad2,4" => Some(iPad2)
    case "iPad2,5" => Some(iPadMini1)
    case "iPad2,6" => Some(iPadMini1)
    case "iPad2,7" => Some(iPadMini1)
    case "iPhone3,1" => Some(iPhone4)
    case "iPhone3,2" => Some(iPhone4)
    case "iPhone3,3" => Some(iPhone4)
    case "iPhone4,1" => Some(iPhone4S)
    case "iPhone5,1" => Some(iPhone5)
    case "iPhone5,2" => Some(iPhone5)
    case "iPhone5,3" => Some(iPhone5C)
    case "iPhone5,4" => Some(iPhone5C)
    case "iPad3,1" => Some(iPad3)
    case "iPad3,2" => Some(iPad3)
    case "iPad3,3" => Some(iPad3)
    case "iPad3,4" => Some(iPad4)
    case "iPad3,5" => Some(iPad4)
    case "iPad3,6" => Some(iPad4)
    case "iPhone6,1" => Some(iPhone5S)
    case "iPhone6,2" => Some(iPhone5S)
    case "iPad4,1" => Some(iPadAir1)
    case "iPad4,2" => Some(iPadAir1)
    case "iPad4,4" => Some(iPadMini2)
    case "iPad4,5" => Some(iPadMini2)
    case "iPad4,6" => Some(iPadMini2)
    case "iPad4,7" => Some(iPadMini3)
    case "iPad4,8" => Some(iPadMini3)
    case "iPad4,9" => Some(iPadMini3)
    case "iPad5,3" => Some(iPadAir2)
    case "iPad5,4" => Some(iPadAir2Cell)
    case "iPad5,1" => Some(iPadMini4)
    case "iPad5,2" => Some(iPadMini4)
    case "iPad6,3" => Some(iPadPro97)
    case "iPad6,11" => Some(iPadPro97)
    case "iPad6,4" => Some(iPadPro97Cell)
    case "iPad6,12" => Some(iPadPro97Cell)
    case "iPad6,7" => Some(iPadPro129)
    case "iPad6,8" => Some(iPadPro129Cell)
    case "iPad7,1" => Some(iPadPro129Gen2)
    case "iPad7,2" => Some(iPadPro129CellGen2)
    case "iPad7,3" => Some(iPadPro105)
    case "iPad7,4" => Some(iPadPro105Cell)
    case "iPad7,5" => Some(iPad6)
    case "iPad7,6" => Some(iPad6)
    case "iPad7,11" => Some(iPad7)
    case "iPad7,12" => Some(iPad7)
    case "iPad8,1" => Some(iPadPro11)
    case "iPad8,2" => Some(iPadPro11)
    case "iPad8,3" => Some(iPadPro11Cell)
    case "iPad8,4" => Some(iPadPro11Cell)
    case "iPad8,5" => Some(iPadPro129Gen3)
    case "iPad8,6" => Some(iPadPro129Gen3_1TbOrMacM1)
    case "iPad8,7" => Some(iPadPro129CellGen3)
    case "iPad8,8" => Some(iPadPro129CellGen3)
    case "iPad8,9" => Some(iPadPro11Gen2)
    case "iPad8,10" => Some(iPadPro11CellGen2)
    case "iPad8,11" => Some(iPadPro129Gen4)
    case "iPad8,12" => Some(iPadPro129CellGen4)
    case "iPad11,1" => Some(iPadMini5)
    case "iPad11,2" => Some(iPadMini5)
    case "iPad11,3" => Some(iPadAir3)
    case "iPad11,4" => Some(iPadAir3)
    case "iPhone7,1" => Some(iPhone6Plus)
    case "iPhone7,2" => Some(iPhone6)
    case "iPhone8,1" => Some(iPhone6S)
    case "iPhone8,2" => Some(iPhone6SPlus)
    case "iPhone8,4" => Some(iPhoneSE)
    case "iPhone9,1" => Some(iPhone7)
    case "iPhone9,2" => Some(iPhone7Plus)
    case "iPhone9,3" => Some(iPhone7)
    case "iPhone9,4" => Some(iPhone7Plus)
    case "iPhone10,1" => Some(iPhone8)
    case "iPhone10,2" => Some(iPhone8Plus)
    case "iPhone10,3" => Some(iPhoneX)
    case "iPhone10,4" => Some(iPhone8)
    case "iPhone10,5" => Some(iPhone8Plus)
    case "iPhone10,6" => Some(iPhoneX)
    case "iPhone11,2" => Some(iPhoneXs)
    case "iPhone11,4" => Some(iPhoneXsMax)
    case "iPhone11,6" => Some(iPhoneXsMax)
    case "iPhone11,8" => Some(iPhoneXr)
    case "iPhone12,1" => Some(iPhone11)
    case "iPhone12,3" => Some(iPhone11Pro)
    case "iPhone12,5" => Some(iPhone11ProMax)
    case "iPhone12,8" => Some(iPhoneSEGen2)
    case "iPhone13,1" => Some(iPhone12Mini)
    case "iPhone13,2" => Some(iPhone12)
    case "iPhone13,3" => Some(iPhone12Pro)
    case "iPhone13,4" => Some(iPhone12ProMax)
    case _ => None
  }

  /** `Platform.Device`: the recognised model and the raw identifier. */
  datatype Device = Device(model: Model, modelCode: string)

  /** `Platform.device`, given the identifier: the mapped model, or
      `unrecognized` for an identifier the table does not list. The device
      keeps the identifier, and its model is `unrecognized` exactly when the
      table does not list the identifier. */
  function DeviceFor(modelCode: string): (d: Device)
    ensures d.modelCode == modelCode
    ensures d.model == unrecognized <==> ModelMapLookup(modelCode) == None
    ensures ModelMapLookup(modelCode).Some? ==> d.model == ModelMapLookup(modelCode).value
  {
    match ModelMapLookup(modelCode)
    case Some(model) => Device(model, modelCode)
    case None => Device(unrecognized, modelCode)
  }

  /** A C `char`, as Swift's `Int8`. */
  newtype Int8 = x: int | -128 <= x < 128

  /** The bytes every identifier is built from: a negative byte would trap in
      `UInt8(value)`. */
  predicate NonNegative(machine: seq<Int8>)
  {
    forall i :: 0 <= i < |machine| ==> machine[i] >= 0
  }

  /** `modelCode`: the `reduce` over the bytes of `utsname.machine`, from the
      first to the last, skipping every zero byte and appending the character
      of each other one. */
  function ModelCode(machine: seq<Int8>): (code: string)
    requires NonNegative(machine)
    ensures |code| <= |machine|
    ensures forall i :: 0 <= i < |code| ==> code[i] != 0 as char
  {
    if machine == [] then
      ""
    else
      var identifier := ModelCode(machine[..|machine| - 1]);
      var value := machine[|machine| - 1];
      if value == 0 then identifier else identifier + [value as int as char]
  }

  /** The characters of the non-zero bytes, front to back: the reference the
      fold is checked against. */
  function NonZeroChars(machine: seq<Int8>): string
    requires NonNegative(machine)
  {
    if machine == [] then ""
    else (if machine[0] == 0 then "" else [machine[0] as int as char]) + NonZeroChars(machine[1..])
  }

  /** The fold over two consecutive byte runs is the concatenation of the folds. */
  lemma {:induction false} ModelCodeAppend(a: seq<Int8>, b: seq<Int8>)
    requires NonNegative(a) && NonNegative(b)
    ensures NonNegative(a + b)
    ensures ModelCode(a + b) == ModelCode(a) + ModelCode(b)
    decreases |b|
  {
    assert NonNegative(a + b) by {
      forall i | 0 <= i < |a + b|
        ensures (a + b)[i] >= 0
      {
        if i >= |a| { assert (a + b)[i] == b[i - |a|]; }
      }
    }
    if b != [] {
      var front := b[..|b| - 1];
      assert (a + b)[..|a + b| - 1] == a + front;
      ModelCodeAppend(a, front);
    } else {
      assert a + b == a;
    }
  }

  /** `modelCode` is the non-zero bytes' characters, in order. */
  lemma {:induction false} ModelCodeIsNonZeroChars(machine: seq<Int8>)
    requires NonNegative(machine)
    ensures ModelCode(machine) == NonZeroChars(machine)
    decreases |machine|
  {
    if machine != [] {
      ModelCodeAppend([machine[0]], machine[1..]);
      assert [machine[0]] + machine[1..] == machine;
      ModelCodeIsNonZeroChars(machine[1..]);
      assert [machine[0]][..0] == [];
    }
  }

  /** A zero byte does not end the identifier: it is skipped and the bytes
      after it are still appended. */
  lemma ZeroByteIsSkipped(a: seq<Int8>, b: seq<Int8>)
    requires NonNegative(a) && NonNegative(b)
    ensures NonNegative(a + [0] + b) && NonNegative(a + b)
    ensures ModelCode(a + [0] + b) == ModelCode(a + b)
  {
    ModelCodeAppend(a, [0]);
    assert [0 as Int8][..0] == [];
    ModelCodeAppend(a + [0], b);
    ModelCodeAppend(a, b);
  }

  /** The fallback model's display string. */
  lemma UnrecognizedRawValue()
    ensures RawValue(unrecognized) == "Unrecognized"
    ensures RawValue(simulator) == "simulator/sandbox"
  {
  }

  /** Both simulator architectures are reported as the simulator. */
  lemma SimulatorCodes()
    ensures ModelMapLookup("i386") == Some(simulator)
    ensures ModelMapLookup("x86_64") == Some(simulator)
  {
  }

  /** The table is many-to-one: the three iPhone 4 variants share one model. */
  lemma IPhone4Variants()
    ensures ModelMapLookup("iPhone3,1") == Some(iPhone4)
    ensures ModelMapLookup("iPhone3,2") == Some(iPhone4)
    ensures ModelMapLookup("iPhone3,3") == Some(iPhone4)
  {
  }

  lemma IPhone12Code()
    ensures DeviceFor("iPhone13,2") == Device(iPhone12, "iPhone13,2")
  {
  }

  /** M1 Macs report the identifier of the 1 TB 12.9" third-generation iPad Pro. */
  lemma IPadPro1TbCode()
    ensures DeviceFor("iPad8,6") == Device(iPadPro129Gen3_1TbOrMacM1, "iPad8,6")
  {
  }

  /** An identifier newer than the table is kept raw, with no model. */
  lemma UnlistedCode()
    ensures DeviceFor("iPhone14,5") == Device(unrecognized, "iPhone14,5")
  {
  }
}
