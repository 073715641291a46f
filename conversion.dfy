/** The colour conversion Segmentation::Preprocess applies before resizing:
    chosen from the image's channel count and the network's. */
module Conversion {
  import opened Wrappers

  /** The cv::cvtColor codes the dispatch can pick. */
  datatype ColorConversion = BgrToGray | BgraToGray | BgraToBgr | GrayToBgr

  /** Channels the conversion reads. */
  function SourceChannels(k: ColorConversion): nat {
    match k
    case BgrToGray => 3
    case BgraToGray => 4
    case BgraToBgr => 4
    case GrayToBgr => 1
  }

  /** Channels the conversion writes. */
  function TargetChannels(k: ColorConversion): nat {
    match k
    case BgrToGray => 1
    case BgraToGray => 1
    case BgraToBgr => 3
    case GrayToBgr => 3
  }

  /** The if/else chain: None means the image is used as it is. */
  function SelectConversion(imageChannels: int, netChannels: int): (r: Option<ColorConversion>)
    ensures r.Some? ==>
      SourceChannels(r.value) == imageChannels && TargetChannels(r.value) == netChannels
    ensures imageChannels == netChannels ==> r.None?
  {
    if imageChannels == 3 && netChannels == 1 then Some(BgrToGray)
    else if imageChannels == 4 && netChannels == 1 then Some(BgraToGray)
    else if imageChannels == 4 && netChannels == 3 then Some(BgraToBgr)
    else if imageChannels == 1 && netChannels == 3 then Some(GrayToBgr)
    else None
  }

  /** The dispatch picks a conversion exactly when one goes from the image's
      channel count to the network's, and then it picks that one. */
  lemma SelectionMatchesEndpoints(imageChannels: int, netChannels: int, k: ColorConversion)
    ensures SelectConversion(imageChannels, netChannels) == Some(k) <==>
      SourceChannels(k) == imageChannels && TargetChannels(k) == netChannels
  {
    match k
    case BgrToGray =>
    case BgraToGray =>
    case BgraToBgr =>
    case GrayToBgr =>
  }

  /** Channel count of the sample after the dispatch. */
  function ConvertedChannels(imageChannels: nat, netChannels: nat): nat
  {
    match SelectConversion(imageChannels, netChannels)
    case Some(k) => TargetChannels(k)
    case None => imageChannels
  }

  /** For the image kinds the program expects (1, 3 or 4 channels) and the
      networks the constructor accepts (1 or 3 channels), the sample ends up
      with the network's channel count. */
  lemma ConversionReachesNetworkChannels(imageChannels: nat, netChannels: nat)
    requires imageChannels == 1 || imageChannels == 3 || imageChannels == 4
    requires netChannels == 1 || netChannels == 3
    ensures ConvertedChannels(imageChannels, netChannels) == netChannels
  {
  }
}
