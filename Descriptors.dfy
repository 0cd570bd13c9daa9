/**
  The serializer proper: the field constructors (StringDescriptionField,
  IntDescriptionField, RootDescriptionField) and RootDescriptor<T>, whose
  tag name and field list are updated in place and whose Serialize writes
  into a text sink.
 */
module Descriptors {
  import opened Wrappers
  import opened Markup
  import opened Formatting
  import opened Rendering

  /** The text sink: everything written so far, in order. */
  class StringWriter {
    var text: string

    constructor ()
      ensures text == []
    {
      text := [];
    }

    method Write(value: string)
      modifies this
      ensures text == old(text) + value
    {
      text := text + value;
    }

    method WriteLine(value: string)
      modifies this
      ensures text == old(text) + (value + NewLine)
    {
      text := text + value + NewLine;
    }

    function ToString(): string
      reads this
    {
      text
    }
  }

  /** A field whose getter yields text; with no tag name the text is spliced verbatim. */
  function StringDescriptionField<T(!new)>(tagName: Option<string>, valueGetter: T -> string): (field: Field<T>)
    ensures field.tagName == tagName
    ensures tagName.None? ==> forall x :: RenderField(field, x) == valueGetter(x)
    ensures tagName.Some? ==> forall x ::
      RenderField(field, x) == OpenTag(tagName.value) + Sanitize(valueGetter(x)) + CloseTag(tagName.value) + NewLine
  {
    var field := Field(tagName, valueGetter);
    if tagName.Some? then
      TaggedFieldLineEverywhere(field, tagName.value);
      field
    else
      field
  }

  /** A field whose getter yields an integer, written as its decimal text. */
  function IntDescriptionField<T(!new)>(tagName: Option<string>, valueGetter: T -> int): (field: Field<T>)
    ensures field.tagName == tagName
    ensures forall x :: IsCanonicalDecimal(field.valueGetter(x)) && ParseInt(field.valueGetter(x)) == valueGetter(x)
    ensures forall x :: '<' !in field.valueGetter(x) && '>' !in field.valueGetter(x)
  {
    DecimalTextEverywhere();
    Field(tagName, x => IntToString(valueGetter(x)))
  }

  /**
    A composite field: it has no tag of its own, and its value is the nested
    descriptor's rendering of the sub-object, under `tagName` when one is
    given and under the nested descriptor's own tag name otherwise.
   */
  function RootDescriptionField<T(!new), U>(tagName: Option<string>, descriptor: RootDescriptor<U>, valueGetter: T -> U)
    : (field: Field<T>)
    reads descriptor
    ensures field.tagName == None
    ensures forall x ::
      && IsElement(field.valueGetter(x), tagName.GetOr(descriptor.tagName))
      && Inner(field.valueGetter(x), OpenLine(tagName.GetOr(descriptor.tagName)), CloseLine(tagName.GetOr(descriptor.tagName)))
      == RenderFields(descriptor.fields, valueGetter(x))
  {
    var tag, fields := tagName.GetOr(descriptor.tagName), descriptor.fields;
    RenderIsElementEverywhere(tag, fields);
    Field(None, x => Render(tag, fields, valueGetter(x)))
  }

  /**
    What a composite field writes for an instance: the nested descriptor's
    whole rendering of the sub-object, under the field's tag name when one is
    given and under the nested descriptor's own tag name otherwise.
   */
  lemma {:induction false} RootDescriptionFieldRendering<T(!new), U>(
    tagName: Option<string>, descriptor: RootDescriptor<U>, valueGetter: T -> U, instance: T)
    ensures RenderField(RootDescriptionField(tagName, descriptor, valueGetter), instance)
         == Render(tagName.GetOr(descriptor.tagName), descriptor.fields, valueGetter(instance))
  {
    var field := RootDescriptionField(tagName, descriptor, valueGetter);
    var tag := tagName.GetOr(descriptor.tagName);
    WrappedParts(field.valueGetter(instance), OpenLine(tag), CloseLine(tag));
  }

  /** Describes how to serialize instances of T: a default tag name and the fields in registration order. */
  class RootDescriptor<T> {
    var tagName: string
    var fields: seq<Field<T>>

    constructor (tagName: string)
      ensures this.tagName == tagName && fields == []
    {
      this.tagName := tagName;
      fields := [];
    }

    /** Appends one field; the fields already registered and the tag name stay as they were. */
    method RegisterDescriptionField(field: Field<T>)
      modifies this
      ensures fields == old(fields) + [field]
      ensures tagName == old(tagName)
    {
      fields := fields + [field];
    }

    /**
      Writes the open line, every field in registration order, then the close
      line, after whatever the writer already holds.
     */
    method Serialize(writer: StringWriter, instance: T)
      modifies writer
      ensures writer.text == old(writer.text) + Render(tagName, fields, instance)
    {
      writer.WriteLine(OpenTag(tagName));
      ghost var prologue := writer.text;
      for i := 0 to |fields|
        invariant writer.text == prologue + RenderFields(fields[..i], instance)
      {
        var field := fields[i];
        match field.tagName {
          case None =>
            writer.Write(field.valueGetter(instance));
          case Some(tag) =>
            writer.WriteLine(OpenTag(tag) + Sanitize(field.valueGetter(instance)) + CloseTag(tag));
            TaggedFieldLine(field, tag, instance);
        }
        RenderFieldsPrefix(fields, i, instance);
        AppendAssoc(prologue, RenderFields(fields[..i], instance), RenderField(field, instance));
      }
      assert fields[..|fields|] == fields;
      writer.WriteLine(CloseTag(tagName));
      ghost var body := RenderFields(fields, instance);
      calc {
        writer.text;
        old(writer.text) + OpenLine(tagName) + body + CloseLine(tagName);
        { AppendAssoc(old(writer.text), OpenLine(tagName) + body, CloseLine(tagName));
          AppendAssoc(old(writer.text), OpenLine(tagName), body); }
        old(writer.text) + Render(tagName, fields, instance);
      }
    }

    /**
      Serializes into a fresh string writer, with `tagName`, when given, in
      place of the descriptor's own tag name for the duration of the call;
      the descriptor's tag name is restored afterwards.
     */
    method SerializeToString(instance: T, tagName: Option<string>) returns (s: string)
      modifies this
      ensures this.tagName == old(this.tagName) && fields == old(fields)
      ensures s == Render(tagName.GetOr(this.tagName), fields, instance)
    {
      var writer := new StringWriter();
      var myTagName := this.tagName;
      if tagName.Some? {
        this.tagName := tagName.value;
      }
      Serialize(writer, instance);
      if tagName.Some? {
        this.tagName := myTagName;
      }
      s := writer.ToString();
    }
  }

  /** Serializing to a string twice in a row gives the same text both times. */
  method SerializeToStringTwice<T>(descriptor: RootDescriptor<T>, instance: T, tagName: Option<string>)
    returns (first: string, second: string)
    modifies descriptor
    ensures first == second
    ensures descriptor.tagName == old(descriptor.tagName) && descriptor.fields == old(descriptor.fields)
  {
    first := descriptor.SerializeToString(instance, tagName);
    second := descriptor.SerializeToString(instance, tagName);
  }
}
