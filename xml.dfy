/**
 * The part of JUCE's XmlElement the core uses: a tag name, named string
 * attributes and child elements.  Integer attributes are stored as their
 * decimal text, as XmlElement::setAttribute(name, int) does, and read back
 * with the integer parser of XmlElement::getIntAttribute.
 */
module Xml {
  import opened Numeric
  import opened Text

  datatype Element = Element(tag: string, attributes: map<string, string>, children: seq<Element>)

  predicate HasTagName(e: Element, name: string)
  {
    e.tag == name
  }

  predicate HasAttribute(e: Element, name: string)
  {
    name in e.attributes
  }

  /** XmlElement::getIntAttribute: the attribute's leading integer, or the default when it is absent. */
  function GetIntAttribute(e: Element, name: string, default: int): (i: int)
    ensures !HasAttribute(e, name) ==> i == default
  {
    if name in e.attributes then LeadingInt(e.attributes[name]) else default
  }

  /** XmlElement::getStringAttribute with a default. */
  function GetStringAttribute(e: Element, name: string, default: string): (s: string)
    ensures HasAttribute(e, name) ==> s == e.attributes[name]
    ensures !HasAttribute(e, name) ==> s == default
  {
    if name in e.attributes then e.attributes[name] else default
  }

  /** XmlElement::setAttribute(name, int). */
  function SetIntAttribute(e: Element, name: string, value: int): (r: Element)
    ensures HasAttribute(r, name) && GetIntAttribute(r, name, 0) == value
    ensures r.tag == e.tag && r.children == e.children
    ensures forall n :: n != name ==> (n in r.attributes <==> n in e.attributes)
    ensures forall n :: n != name && n in e.attributes ==> r.attributes[n] == e.attributes[n]
  {
    IntToStringRoundTrip(value);
    e.(attributes := e.attributes[name := IntToString(value)])
  }

  /** XmlElement::getChildByName: the first child with the given tag, if any. */
  function GetChildByName(e: Element, name: string): (r: Option<Element>)
    ensures r.Some? ==> r.value in e.children && r.value.tag == name
    ensures r.None? <==> forall i :: 0 <= i < |e.children| ==> e.children[i].tag != name
  {
    FirstWithTag(e.children, name)
  }

  function FirstWithTag(elements: seq<Element>, name: string): (r: Option<Element>)
    ensures r.Some? ==> r.value in elements && r.value.tag == name
    ensures r.None? <==> forall i :: 0 <= i < |elements| ==> elements[i].tag != name
  {
    if elements == [] then None
    else if elements[0].tag == name then Some(elements[0])
    else FirstWithTag(elements[1..], name)
  }
}
