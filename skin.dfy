/**
 * The skin of the plug-in window (Source/skin.cpp): the names of the
 * background image and of the two skin groups the current meter settings
 * select, the checks a skin file must pass when it is loaded, and the
 * three-level lookup of a component's element: the skin group, then its
 * fallback, then the "default" group.
 *
 * The parsed skin file and whether its resource directory exists are
 * parameters; the element pointers into the document are Option values.
 */
module Skin {
  import opened Numeric
  import opened Xml
  import PluginParameters

  const RootTag := "kmeter-skin"
  const DefaultGroup := "default"

  // ---------------------------------------------------------------------
  // Names
  // ---------------------------------------------------------------------

  /** The background image's attribute: expanded or not, with or without the peak meter. */
  function BackgroundSelector(expanded: bool, displayPeakMeter: bool): (s: string)
    ensures |s| == (if expanded then 14 else 5) + (if displayPeakMeter then 6 else 9)
  {
    (if expanded then "image_expanded" else "image") + (if displayPeakMeter then "_peaks" else "_no_peaks")
  }

  /** The four background images. */
  lemma BackgroundSelectorNames(expanded: bool, displayPeakMeter: bool)
    ensures BackgroundSelector(expanded, displayPeakMeter)
            in {"image_peaks", "image_no_peaks", "image_expanded_peaks", "image_expanded_no_peaks"}
  {
    if expanded {
      if displayPeakMeter {
        assert "image_expanded" + "_peaks" == "image_expanded_peaks";
      } else {
        assert "image_expanded" + "_no_peaks" == "image_expanded_no_peaks";
      }
    } else {
      if displayPeakMeter {
        assert "image" + "_peaks" == "image_peaks";
      } else {
        assert "image" + "_no_peaks" == "image_no_peaks";
      }
    }
  }

  /** Distinct settings select distinct background images. */
  lemma BackgroundSelectorInjective(e1: bool, p1: bool, e2: bool, p2: bool)
    requires BackgroundSelector(e1, p1) == BackgroundSelector(e2, p2)
    ensures e1 == e2 && p1 == p2
  {
    assert |BackgroundSelector(e1, p1)| == |BackgroundSelector(e2, p2)|;
  }

  /** The fallback group: stereo for up to two channels, else surround, and the averaging algorithm. */
  function Fallback(numberOfChannels: int, averageAlgorithm: int): (s: string)
    ensures |s| == (if numberOfChannels <= 2 then 10 else 12)
    ensures s[|s| - 3] == (if averageAlgorithm == PluginParameters.AlgorithmItuBs1770 then 'i' else 'r')
  {
    (if numberOfChannels <= 2 then "stereo" else "surround")
    + (if averageAlgorithm == PluginParameters.AlgorithmItuBs1770 then "_itu" else "_rms")
  }

  /** The crest factors with a group of their own; every other one shares the "normal" group. */
  predicate NamedCrestFactor(crestFactor: int)
  {
    crestFactor == 20 || crestFactor == 14 || crestFactor == 12
  }

  function CrestSuffix(crestFactor: int): (s: string)
    ensures |s| == (if NamedCrestFactor(crestFactor) then 4 else 7)
    ensures NamedCrestFactor(crestFactor) ==>
              s[..2] == "_k" && s[2] as int == '0' as int + crestFactor / 10 && s[3] as int == '0' as int + crestFactor % 10
  {
    match crestFactor
    case 20 => "_k20"
    case 14 => "_k14"
    case 12 => "_k12"
    case _ => "_normal"
  }

  /** The skin group: the fallback group followed by the crest factor. */
  function Group(numberOfChannels: int, crestFactor: int, averageAlgorithm: int): (s: string)
    ensures Fallback(numberOfChannels, averageAlgorithm) <= s
    ensures |s| == |Fallback(numberOfChannels, averageAlgorithm)| + |CrestSuffix(crestFactor)|
  {
    Fallback(numberOfChannels, averageAlgorithm) + CrestSuffix(crestFactor)
  }

  /** Neither skin group is the default group, so the three lookup levels are distinct. */
  lemma GroupsAreNotDefault(numberOfChannels: int, crestFactor: int, averageAlgorithm: int)
    ensures Fallback(numberOfChannels, averageAlgorithm) != DefaultGroup
    ensures Group(numberOfChannels, crestFactor, averageAlgorithm) != DefaultGroup
    ensures Group(numberOfChannels, crestFactor, averageAlgorithm) != Fallback(numberOfChannels, averageAlgorithm)
  {
  }

  /**
   * The skin group's name tells the settings apart: the channel layout,
   * the averaging algorithm and the crest factor (the ones without a group
   * of their own counting as one).
   */
  lemma GroupInjective(c1: int, k1: int, a1: int, c2: int, k2: int, a2: int)
    requires Group(c1, k1, a1) == Group(c2, k2, a2)
    ensures (c1 <= 2 <==> c2 <= 2)
    ensures Fallback(c1, a1) == Fallback(c2, a2)
    ensures (a1 == PluginParameters.AlgorithmItuBs1770 <==> a2 == PluginParameters.AlgorithmItuBs1770)
    ensures CrestSuffix(k1) == CrestSuffix(k2)
    ensures NamedCrestFactor(k1) || NamedCrestFactor(k2) ==> k1 == k2
  {
    var g := Group(c1, k1, a1);
    var f1, f2 := Fallback(c1, a1), Fallback(c2, a2);
    assert |f1| == |f2| by {
      assert |g| == |f1| + |CrestSuffix(k1)| == |f2| + |CrestSuffix(k2)|;
    }
    assert f1 == g[..|f1|] == f2;
    assert f1[|f1| - 3] == f2[|f2| - 3];
    assert CrestSuffix(k1) == g[|f1|..] == CrestSuffix(k2);
  }

  // ---------------------------------------------------------------------
  // Lookup
  // ---------------------------------------------------------------------

  /** The child with the given tag of an element that may be missing. */
  function ChildOf(node: Option<Element>, tag: string): (r: Option<Element>)
    ensures r.Some? ==> node.Some? && r.value in node.value.children && r.value.tag == tag
    ensures node.Some? ==> r == GetChildByName(node.value, tag)
  {
    if node.Some? then GetChildByName(node.value, tag) else None
  }

  /** Reference lookup: the child of the first group along the list that has one with the tag. */
  function FirstHit(groups: seq<Option<Element>>, tag: string): Option<Element>
  {
    if groups == [] then None
    else if ChildOf(groups[0], tag).Some? then ChildOf(groups[0], tag)
    else FirstHit(groups[1..], tag)
  }

  /**
   * The reference lookup finds something exactly when some group has a
   * child with the tag, and then it is that child of the first such group.
   */
  lemma {:induction false} FirstHitFinds(groups: seq<Option<Element>>, tag: string)
    ensures FirstHit(groups, tag).Some? <==> exists i :: 0 <= i < |groups| && ChildOf(groups[i], tag).Some?
    ensures FirstHit(groups, tag).Some? ==>
              exists i :: 0 <= i < |groups| && FirstHit(groups, tag) == ChildOf(groups[i], tag)
                          && forall j :: 0 <= j < i ==> ChildOf(groups[j], tag).None?
  {
    if groups != [] && ChildOf(groups[0], tag).None? {
      var rest := groups[1..];
      FirstHitFinds(rest, tag);
      assert forall i :: 1 <= i < |groups| ==> groups[i] == rest[i - 1];
      if FirstHit(rest, tag).Some? {
        var i :| 0 <= i < |rest| && FirstHit(rest, tag) == ChildOf(rest[i], tag)
                 && forall j :: 0 <= j < i ==> ChildOf(rest[j], tag).None?;
        assert forall j :: 0 <= j < i + 1 ==> ChildOf(groups[j], tag).None? by {
          forall j | 0 <= j < i + 1
            ensures ChildOf(groups[j], tag).None?
          {
            if j > 0 {
              assert groups[j] == rest[j - 1];
            }
          }
        }
        assert FirstHit(groups, tag) == ChildOf(groups[i + 1], tag);
      }
    }
  }

  /** A skin file Skin::loadFromXml accepts: its root is "kmeter-skin" and has a default group. */
  predicate ValidRoot(document: Element)
  {
    HasTagName(document, RootTag) && GetChildByName(document, DefaultGroup).Some?
  }

  class Skin {
    var numberOfChannels: int
    var backgroundSelector: string
    var skinFallback: string
    var skinGroup: string
    /** The loaded skin document; None when none is loaded or it was rejected. */
    var xml: Option<Element>
    /** The groups of the loaded document: the skin group, its fallback and the default group. */
    var xmlSkinGroup: Option<Element>
    var xmlSkinFallback: Option<Element>
    var xmlSkinDefault: Option<Element>
    /** The "path" attribute of an accepted skin file, where the images are. */
    var resourcePath: Option<string>

    /** A loaded document is a valid skin whose groups are looked up under the current names. */
    predicate Valid()
      reads this
    {
      && skinFallback <= skinGroup
      && (xml.Some? ==>
           && ValidRoot(xml.value)
           && xmlSkinGroup == GetChildByName(xml.value, skinGroup)
           && xmlSkinFallback == GetChildByName(xml.value, skinFallback)
           && xmlSkinDefault == GetChildByName(xml.value, DefaultGroup)
           && resourcePath.Some?)
    }

    /** Skin::Skin: the names for the settings, then the skin file. */
    constructor (document: Option<Element>, resourceDirectoryExists: bool, channels: int, crestFactor: int,
                 averageAlgorithm: int, expanded: bool, displayPeakMeter: bool)
      requires channels > 0
      ensures Valid()
      ensures numberOfChannels == channels
      ensures backgroundSelector == BackgroundSelector(expanded, displayPeakMeter)
      ensures skinFallback == Fallback(channels, averageAlgorithm)
      ensures skinGroup == Group(channels, crestFactor, averageAlgorithm)
      ensures xml == (if document.Some? && ValidRoot(document.value) && resourceDirectoryExists then document else None)
    {
      xml := None;
      resourcePath := None;
      skinFallback := "";
      skinGroup := "";
      new;
      UpdateSkin(channels, crestFactor, averageAlgorithm, expanded, displayPeakMeter);
      var loaded := LoadFromXml(document, resourceDirectoryExists);
    }

    /**
     * Skin::loadFromXml: a document that is missing, has another root or
     * lacks the default group is rejected, as is one whose resource
     * directory does not exist; an accepted one is kept with its groups.
     */
    method LoadFromXml(document: Option<Element>, resourceDirectoryExists: bool) returns (loaded: bool)
      requires Valid()
      modifies this
      ensures Valid()
      ensures loaded <==> document.Some? && ValidRoot(document.value) && resourceDirectoryExists
      ensures xml == (if loaded then document else None)
      ensures loaded ==> resourcePath == Some(GetStringAttribute(document.value, "path", ""))
      ensures !loaded ==> resourcePath.None?
      ensures document.None? || !ValidRoot(document.value) ==> xmlSkinGroup.None? && xmlSkinFallback.None? && xmlSkinDefault.None?
      ensures numberOfChannels == old(numberOfChannels) && backgroundSelector == old(backgroundSelector)
      ensures skinFallback == old(skinFallback) && skinGroup == old(skinGroup)
    {
      resourcePath := None;
      xml := document;
      xmlSkinGroup := None;
      xmlSkinFallback := None;
      xmlSkinDefault := None;
      if xml.None? {
        return false;
      } else if !HasTagName(xml.value, RootTag) || GetChildByName(xml.value, DefaultGroup).None? {
        xml := None;
        return false;
      } else {
        xmlSkinGroup := GetChildByName(xml.value, skinGroup);
        xmlSkinFallback := GetChildByName(xml.value, skinFallback);
        xmlSkinDefault := GetChildByName(xml.value, DefaultGroup);
        resourcePath := Some(GetStringAttribute(xml.value, "path", ""));
        if !resourceDirectoryExists {
          resourcePath := None;
          xml := None;
          return false;
        }
        return true;
      }
    }

    /** Skin::updateSkin: the names for the settings, and the loaded document's groups under them. */
    method UpdateSkin(channels: int, crestFactor: int, averageAlgorithm: int, expanded: bool, displayPeakMeter: bool)
      requires channels > 0 && Valid()
      modifies this
      ensures Valid()
      ensures numberOfChannels == channels
      ensures backgroundSelector == BackgroundSelector(expanded, displayPeakMeter)
      ensures skinFallback == Fallback(channels, averageAlgorithm)
      ensures skinGroup == Group(channels, crestFactor, averageAlgorithm)
      ensures xml == old(xml) && resourcePath == old(resourcePath)
      ensures xml.None? ==> xmlSkinGroup.None? && xmlSkinFallback.None? && xmlSkinDefault.None?
    {
      numberOfChannels := channels;
      SelectBackground(expanded, displayPeakMeter);
      SelectGroups(crestFactor, averageAlgorithm);
      FindGroups();
    }

    /** The first part of updateSkin: the background image's name. */
    method SelectBackground(expanded: bool, displayPeakMeter: bool)
      modifies this`backgroundSelector
      ensures backgroundSelector == BackgroundSelector(expanded, displayPeakMeter)
    {
      if expanded {
        backgroundSelector := "image_expanded";
      } else {
        backgroundSelector := "image";
      }
      if displayPeakMeter {
        backgroundSelector := backgroundSelector + "_peaks";
      } else {
        backgroundSelector := backgroundSelector + "_no_peaks";
      }
    }

    /** The second part of updateSkin: the fallback group's and the skin group's names. */
    method SelectGroups(crestFactor: int, averageAlgorithm: int)
      modifies this`skinFallback, this`skinGroup
      ensures skinFallback == Fallback(numberOfChannels, averageAlgorithm)
      ensures skinGroup == Group(numberOfChannels, crestFactor, averageAlgorithm)
    {
      if numberOfChannels <= 2 {
        skinFallback := "stereo";
      } else {
        skinFallback := "surround";
      }
      if averageAlgorithm == PluginParameters.AlgorithmItuBs1770 {
        skinFallback := skinFallback + "_itu";
      } else {
        skinFallback := skinFallback + "_rms";
      }
      skinGroup := skinFallback + CrestSuffix(crestFactor);
    }

    /** The last part of updateSkin: the loaded document's groups under the current names, or none. */
    method FindGroups()
      requires skinFallback <= skinGroup
      requires xml.Some? ==> ValidRoot(xml.value) && resourcePath.Some?
      modifies this`xmlSkinGroup, this`xmlSkinFallback, this`xmlSkinDefault
      ensures Valid()
      ensures xml.None? ==> xmlSkinGroup.None? && xmlSkinFallback.None? && xmlSkinDefault.None?
    {
      if xml.Some? {
        xmlSkinGroup := GetChildByName(xml.value, skinGroup);
        xmlSkinFallback := GetChildByName(xml.value, skinFallback);
        xmlSkinDefault := GetChildByName(xml.value, DefaultGroup);
      } else {
        xmlSkinGroup := None;
        xmlSkinFallback := None;
        xmlSkinDefault := None;
      }
    }

    /**
     * Skin::getComponentFromXml: nothing without a document, else the
     * element from the skin group, the fallback or the default group,
     * whichever is the first to have one with the tag.
     */
    function ComponentFromXml(tag: string): (r: Option<Element>)
      reads this
      ensures xml.None? ==> r.None?
      ensures r.Some? ==> r.value.tag == tag
    {
      if xml.None? then None
      else if ChildOf(xmlSkinGroup, tag).Some? then ChildOf(xmlSkinGroup, tag)
      else if ChildOf(xmlSkinFallback, tag).Some? then ChildOf(xmlSkinFallback, tag)
      else if ChildOf(xmlSkinDefault, tag).Some? then ChildOf(xmlSkinDefault, tag)
      else None
    }

    /** The lookup is the reference lookup along the three groups, in order. */
    lemma ComponentIsFirstHit(tag: string)
      requires xml.Some?
      ensures ComponentFromXml(tag) == FirstHit([xmlSkinGroup, xmlSkinFallback, xmlSkinDefault], tag)
    {
      var groups := [xmlSkinGroup, xmlSkinFallback, xmlSkinDefault];
      assert FirstHit(groups[2..], tag) == ChildOf(xmlSkinDefault, tag) by {
        assert groups[2..][1..] == [];
      }
      assert FirstHit(groups[1..], tag) == if ChildOf(xmlSkinFallback, tag).Some? then ChildOf(xmlSkinFallback, tag)
                                           else FirstHit(groups[2..], tag) by {
        assert groups[1..][1..] == groups[2..];
      }
    }

    /**
     * With a skin loaded, a component is found exactly when one of the
     * three groups has it; one the default group has is always found,
     * and one the skin group has is taken from there.
     */
    lemma ComponentLookupOrder(tag: string)
      requires Valid() && xml.Some?
      ensures ComponentFromXml(tag).Some? <==>
        ChildOf(GetChildByName(xml.value, skinGroup), tag).Some?
        || ChildOf(GetChildByName(xml.value, skinFallback), tag).Some?
        || ChildOf(GetChildByName(xml.value, DefaultGroup), tag).Some?
      ensures ChildOf(GetChildByName(xml.value, skinGroup), tag).Some? ==>
        ComponentFromXml(tag) == ChildOf(GetChildByName(xml.value, skinGroup), tag)
      ensures xmlSkinDefault.Some?
    {
    }
  }
}
