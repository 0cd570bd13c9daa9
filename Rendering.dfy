/**
  The specification of what a descriptor writes: a pure function of its tag
  name, its ordered field list and the instance being serialized.
 */
module Rendering {
  import opened Wrappers
  import opened Markup

  /**
    A registered field (DescriptionField): an optional tag name and a getter
    from the instance to the text of the value. With no tag name the value is
    spliced into the output verbatim.
   */
  datatype Field<!T> = Field(tagName: Option<string>, valueGetter: T -> string)

  /** What WriteLine writes for `<tagName>`. */
  function OpenLine(tagName: string): string
  {
    OpenTag(tagName) + NewLine
  }

  /** What WriteLine writes for `</tagName>`. */
  function CloseLine(tagName: string): string
  {
    CloseTag(tagName) + NewLine
  }

  /** What Serialize writes for one field. */
  function RenderField<T>(field: Field<T>, instance: T): string
  {
    match field.tagName
    case None => field.valueGetter(instance)
    case Some(tag) => OpenTag(tag) + Sanitize(field.valueGetter(instance)) + CloseLine(tag)
  }

  /** A tagged field's rendering is the line WriteLine writes for its open tag, escaped value and close tag. */
  lemma {:induction false} TaggedFieldLine<T>(field: Field<T>, tag: string, instance: T)
    requires field.tagName == Some(tag)
    ensures RenderField(field, instance)
         == OpenTag(tag) + Sanitize(field.valueGetter(instance)) + CloseTag(tag) + NewLine
  {
    AppendAssoc(OpenTag(tag) + Sanitize(field.valueGetter(instance)), CloseTag(tag), NewLine);
  }

  /** TaggedFieldLine, for every instance at once. */
  lemma {:induction false} TaggedFieldLineEverywhere<T(!new)>(field: Field<T>, tag: string)
    requires field.tagName == Some(tag)
    ensures forall instance ::
      RenderField(field, instance) == OpenTag(tag) + Sanitize(field.valueGetter(instance)) + CloseTag(tag) + NewLine
  {
    forall instance
      ensures RenderField(field, instance)
           == OpenTag(tag) + Sanitize(field.valueGetter(instance)) + CloseTag(tag) + NewLine
    {
      TaggedFieldLine(field, tag, instance);
    }
  }

  /** The renderings of the fields, in list order. */
  function RenderFields<T>(fields: seq<Field<T>>, instance: T): string
  {
    if fields == [] then []
    else RenderFields(fields[..|fields| - 1], instance) + RenderField(fields[|fields| - 1], instance)
  }

  /** The whole element Serialize writes under the outer tag `tagName`. */
  function Render<T>(tagName: string, fields: seq<Field<T>>, instance: T): string
  {
    OpenLine(tagName) + RenderFields(fields, instance) + CloseLine(tagName)
  }

  /** `s` starts with `open` and ends with `close`, the two not overlapping. */
  predicate Wrapped(s: string, open: string, close: string)
  {
    |open| + |close| <= |s| && s[..|open|] == open && s[|s| - |close|..] == close
  }

  /** What lies between `open` and `close` in a wrapped string. */
  function Inner(s: string, open: string, close: string): string
    requires Wrapped(s, open, close)
  {
    s[|open|..|s| - |close|]
  }

  /** `s` is one element named `tag`: an open tag on its own line, the body, a close tag on its own line. */
  predicate IsElement(s: string, tag: string)
  {
    Wrapped(s, OpenLine(tag), CloseLine(tag))
  }

  /** `s` is one leaf line named `tag`: the open tag, the text, the close tag and a line break. */
  predicate IsLeafLine(s: string, tag: string)
  {
    Wrapped(s, OpenTag(tag), CloseLine(tag))
  }

  lemma {:induction false} WrappedConcat(open: string, mid: string, close: string)
    ensures Wrapped(open + mid + close, open, close)
    ensures Inner(open + mid + close, open, close) == mid
  {
    var s := open + mid + close;
    assert s[..|open|] == open;
    assert s[|s| - |close|..] == close;
    assert s[|open|..|s| - |close|] == mid;
  }

  /** A wrapped string is made of its opening, what lies between, and its closing. */
  lemma {:induction false} WrappedParts(s: string, open: string, close: string)
    requires Wrapped(s, open, close)
    ensures s == open + Inner(s, open, close) + close
  {
    assert s == s[..|open|] + s[|open|..|s| - |close|] + s[|s| - |close|..];
  }

  /** Rendering a concatenation of field lists concatenates the renderings. */
  lemma {:induction false} RenderFieldsAppend<T>(a: seq<Field<T>>, b: seq<Field<T>>, instance: T)
    ensures RenderFields(a + b, instance) == RenderFields(a, instance) + RenderFields(b, instance)
  {
    if b == [] {
      assert a + b == a;
    } else {
      var front, last := b[..|b| - 1], b[|b| - 1];
      assert (a + b)[..|a + b| - 1] == a + front;
      assert (a + b)[|a + b| - 1] == last;
      RenderFieldsAppend(a, front, instance);
      AppendAssoc(RenderFields(a, instance), RenderFields(front, instance), RenderField(last, instance));
    }
  }

  /** The renderings of the first `i + 1` fields: those of the first `i`, then field `i`'s. */
  lemma {:induction false} RenderFieldsPrefix<T>(fields: seq<Field<T>>, i: nat, instance: T)
    requires i < |fields|
    ensures RenderFields(fields[..i + 1], instance) == RenderFields(fields[..i], instance) + RenderField(fields[i], instance)
  {
    assert fields[..i + 1][..i] == fields[..i];
  }

  /**
    Field `i` is rendered after every field registered before it and before
    every field registered after it.
   */
  lemma {:induction false} RenderFieldsAt<T>(fields: seq<Field<T>>, i: nat, instance: T)
    requires i < |fields|
    ensures RenderFields(fields, instance)
         == RenderFields(fields[..i], instance) + RenderField(fields[i], instance) + RenderFields(fields[i + 1..], instance)
  {
    var before, after := fields[..i], fields[i + 1..];
    assert fields == (before + [fields[i]]) + after;
    RenderFieldsAppend(before + [fields[i]], after, instance);
    assert (before + [fields[i]])[..|before|] == before;
  }

  /** Registering one more field adds its rendering after those of the fields already registered. */
  lemma {:induction false} RenderFieldsRegistered<T>(fields: seq<Field<T>>, field: Field<T>, instance: T)
    ensures RenderFields(fields + [field], instance) == RenderFields(fields, instance) + RenderField(field, instance)
  {
    assert (fields + [field])[..|fields|] == fields;
  }

  /** Registering one more field inserts its rendering just before the outer close tag. */
  lemma {:induction false} RenderRegistered<T>(tagName: string, fields: seq<Field<T>>, field: Field<T>, instance: T)
    ensures Render(tagName, fields + [field], instance)
         == OpenLine(tagName) + RenderFields(fields, instance) + RenderField(field, instance) + CloseLine(tagName)
  {
    assert (fields + [field])[..|fields|] == fields;
  }

  /** A rendering is one element named by the outer tag, with the fields' renderings as its body. */
  lemma {:induction false} RenderIsElement<T>(tagName: string, fields: seq<Field<T>>, instance: T)
    ensures IsElement(Render(tagName, fields, instance), tagName)
    ensures Inner(Render(tagName, fields, instance), OpenLine(tagName), CloseLine(tagName))
         == RenderFields(fields, instance)
  {
    WrappedConcat(OpenLine(tagName), RenderFields(fields, instance), CloseLine(tagName));
  }

  /** RenderIsElement, for every instance at once. */
  lemma {:induction false} RenderIsElementEverywhere<T>(tagName: string, fields: seq<Field<T>>)
    ensures forall instance :: IsElement(Render(tagName, fields, instance), tagName)
    ensures forall instance ::
      Inner(Render(tagName, fields, instance), OpenLine(tagName), CloseLine(tagName)) == RenderFields(fields, instance)
  {
    forall instance
      ensures IsElement(Render(tagName, fields, instance), tagName)
      ensures Inner(Render(tagName, fields, instance), OpenLine(tagName), CloseLine(tagName)) == RenderFields(fields, instance)
    {
      RenderIsElement(tagName, fields, instance);
    }
  }

  /**
    Rendering under another tag changes only the outer open and close lines:
    the body between them is the same.
   */
  lemma {:induction false} OverrideKeepsBody<T>(tagName: string, other: string, fields: seq<Field<T>>, instance: T)
    ensures IsElement(Render(tagName, fields, instance), tagName)
    ensures IsElement(Render(other, fields, instance), other)
    ensures Inner(Render(tagName, fields, instance), OpenLine(tagName), CloseLine(tagName))
         == Inner(Render(other, fields, instance), OpenLine(other), CloseLine(other))
  {
    RenderIsElement(tagName, fields, instance);
    RenderIsElement(other, fields, instance);
  }

  /**
    A leaf field is written as one line whose text holds no angle bracket;
    when the value holds no `&` that text unescapes to the value.
   */
  lemma {:induction false} LeafFieldIsLine<T>(field: Field<T>, tag: string, instance: T)
    requires field.tagName == Some(tag)
    ensures IsLeafLine(RenderField(field, instance), tag)
    ensures var text := Inner(RenderField(field, instance), OpenTag(tag), CloseLine(tag));
      && text == Sanitize(field.valueGetter(instance))
      && '<' !in text && '>' !in text
      && ('&' !in field.valueGetter(instance) ==> Unescape(text) == field.valueGetter(instance))
  {
    var value := field.valueGetter(instance);
    WrappedConcat(OpenTag(tag), Sanitize(value), CloseLine(tag));
    if '&' !in value {
      SanitizeRoundTrip(value);
    }
  }

  /**
    A field with no tag has its value spliced verbatim (unsanitized) into the
    body of the parent element, between the renderings of the fields
    registered before and after it.
   */
  lemma {:induction false} UntaggedFieldSpliced<T>(tagName: string, fields: seq<Field<T>>, i: nat, instance: T)
    requires i < |fields|
    requires fields[i].tagName == None
    ensures IsElement(Render(tagName, fields, instance), tagName)
    ensures Inner(Render(tagName, fields, instance), OpenLine(tagName), CloseLine(tagName))
         == RenderFields(fields[..i], instance) + fields[i].valueGetter(instance) + RenderFields(fields[i + 1..], instance)
  {
    RenderIsElement(tagName, fields, instance);
    RenderFieldsAt(fields, i, instance);
  }
}
