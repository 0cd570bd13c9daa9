# UnreflectedSerializer in Dafny

A model of UnreflectedSerializer, a small XML-like serializer that does not
use reflection. A `RootDescriptor<T>` is built by hand: a default tag name
plus an ordered list of field descriptors. Each field pairs an optional tag
name with a getter from the instance to the text of the value. `Serialize`
writes:

- the open tag on its own line;
- then one line per tagged field: open tag, escaped value, close tag;
- each untagged field's value spliced in verbatim;
- finally the close tag on its own line.

A composite field (`RootDescriptionField`) has no tag of its own. Its value
is a nested descriptor's whole rendering of a sub-object, under the field's
name.

Modules:

- `Wrappers`: `Option`. It models the source's nullable tag names.
- `Markup`:
  - `OpenTag`, `CloseTag` and `Sanitize`.
  - `Sanitize` is kept in the source's form, two chained whole-string
    replacements. It is proved equal to a per-character escape (`Escape`).
  - An `Unescape` partner gives its round trip.
- `Formatting`:
  - the decimal text of an integer (`IntToString`, standing in for
    `int.ToString()`);
  - its reader `ParseInt` and the round trip between them.
- `Rendering`:
  - the `Field` datatype;
  - the pure specification `Render(tagName, fields, instance)` of what
    `Serialize` writes;
  - lemmas about its structure: order, wrapping, splicing, the tag
    override.
- `Descriptors`:
  - the string sink `StringWriter`, a class over the accumulated text;
  - the field constructors;
  - the class `RootDescriptor<T>`, with its mutable `tagName` and `fields`.
  - Its methods `RegisterDescriptionField`, `Serialize` (a loop proved
    against `Render`) and `SerializeToString` (saves, overrides and restores
    `tagName`).
- `Samples`:
  - the sample types `Address`, `Country`, `PhoneNumber` and `Person`;
  - the descriptor builders of the program, each proved to produce a given
    body for every instance;
  - the Czech Republic country written out literally.

## Model

| member | source | states |
|---|---|---|
| Markup.OpenTag | UnreflectedSerializer/Program.cs:53-56 | the open tag is `<`, the tag name, then `>` |
| Markup.CloseTag | UnreflectedSerializer/Program.cs:58-61 | the close tag is `</`, the tag name, then `>` |
| Markup.Replace | UnreflectedSerializer/Program.cs:65 | replacing one character: every character of the result is either a kept character of the input or comes from the replacement text, and every character other than the target survives |
| Markup.Sanitize | UnreflectedSerializer/Program.cs:63-66 | the escaped value holds no `<` and no `>`, and every other character of the value is kept |
| Markup.SanitizeIsPerCharacter | UnreflectedSerializer/Program.cs:63-66 | the two chained replacements equal one per-character mapping: `<` to `&lt;`, `>` to `&gt;`, every other character (`&` and `"` included) unchanged |
| Markup.ReplaceAppend | UnreflectedSerializer/Program.cs:65 | replacing a character in two joined texts is replacing it in each and joining the results |
| Markup.ReplaceAbsent | UnreflectedSerializer/Program.cs:65 | replacing a character that does not occur changes nothing |
| Markup.UnescapeEscape | UnreflectedSerializer/Program.cs:63-66 | the per-character escape of a text with no `&` unescapes to that text |
| Markup.SanitizeLeavesPlainText | UnreflectedSerializer/Program.cs:63-66 | a value with no angle bracket is written unchanged |
| Markup.SanitizeRoundTrip | UnreflectedSerializer/Program.cs:63-66 | for a value with no `&`, unescaping the escaped value gives the value back |
| Markup.SanitizeConflatesAmpersand | UnreflectedSerializer/Program.cs:65 | `&` is not escaped, so the values `&lt;` and `<` are written identically |
| Markup.SanitizeExample | UnreflectedSerializer/Program.cs:65 | `<x>&y` is written as `&lt;x&gt;&y` |
| Formatting.IntToString | UnreflectedSerializer/Program.cs:27 | the text of an integer is a `-` exactly when it is negative, then at least one decimal digit; the first digit is `0` only for zero itself, so there is no leading zero and no `-0` |
| Formatting.ParseNatCanonical | UnreflectedSerializer/Program.cs:27 | a run of digits with no leading zero is the decimal text of the number it denotes |
| Formatting.CanonicalDecimalUnique | UnreflectedSerializer/Program.cs:27 | every text of that canonical shape is the text of the integer it denotes, so the integer fixes its text exactly |
| Formatting.IntToStringRoundTrip | UnreflectedSerializer/Program.cs:27 | reading the decimal text back gives the integer |
| Formatting.IntToStringHasNoBrackets | UnreflectedSerializer/Program.cs:27 | the text of an integer holds no angle bracket |
| Descriptors.StringDescriptionField | UnreflectedSerializer/Program.cs:13-20 | the field keeps its tag name; with no tag it writes the getter's text verbatim, with a tag it writes the open tag, the escaped text, the close tag and a newline |
| Descriptors.IntDescriptionField | UnreflectedSerializer/Program.cs:22-29 | the field keeps its tag name; its value text is canonical decimal (no leading zero, no `-0`), reads back as the getter's integer, and so by CanonicalDecimalUnique is exactly that integer's text; it holds no angle bracket |
| Descriptors.RootDescriptionField | UnreflectedSerializer/Program.cs:31-37 | a composite field has no tag name; its value is an element under the override tag (or the nested descriptor's own tag when none is given) whose body is the nested fields' renderings |
| Descriptors.RootDescriptionFieldRendering | UnreflectedSerializer/Program.cs:35 | a composite field writes the nested descriptor's whole rendering of the sub-object under the field's name |
| Descriptors.RootDescriptor.constructor | UnreflectedSerializer/Program.cs:44-46 | a new descriptor has the given tag name and no fields |
| Descriptors.RootDescriptor.RegisterDescriptionField | UnreflectedSerializer/Program.cs:48-51 | the field is appended after the fields already registered, which are unchanged, as is the tag name |
| Descriptors.RootDescriptor.Serialize | UnreflectedSerializer/Program.cs:68-79 | the writer gains exactly `Render(tagName, fields, instance)` after what it already held: open line, each field in order, close line |
| Descriptors.RootDescriptor.SerializeToString | UnreflectedSerializer/Program.cs:81-95 | the result is the rendering under the override tag when one is given and under the descriptor's own tag otherwise; the tag name and fields are the same after the call as before |
| Descriptors.SerializeToStringTwice | UnreflectedSerializer/Program.cs:81-95 | two successive calls with the same arguments return the same text and leave the descriptor as it was |
| Rendering.TaggedFieldLine | UnreflectedSerializer/Program.cs:75-76 | a tagged field writes its open tag, escaped value and close tag, then a newline |
| Rendering.LeafFieldIsLine | UnreflectedSerializer/Program.cs:75-76 | a tagged field's line is wrapped by its open tag and close line; the text between is the escaped value, holds no angle bracket, and unescapes to the value when the value holds no `&` |
| Rendering.UntaggedFieldSpliced | UnreflectedSerializer/Program.cs:73-74 | an untagged field's value appears verbatim in the parent's body, between the renderings of the fields before it and after it |
| Rendering.RenderFieldsAt | UnreflectedSerializer/Program.cs:71-77 | field `i` is written after all fields registered before it and before all fields registered after it |
| Rendering.RenderFieldsAppend | UnreflectedSerializer/Program.cs:71-77 | the renderings of two consecutive runs of fields are the renderings of each run, in order |
| Rendering.RenderFieldsPrefix | UnreflectedSerializer/Program.cs:71-77 | after `i + 1` loop steps the output is that of `i` steps followed by field `i` |
| Rendering.RenderFieldsRegistered | UnreflectedSerializer/Program.cs:48-51 | registering one more field adds its rendering after those of the fields already registered |
| Rendering.RenderRegistered | UnreflectedSerializer/Program.cs:48-51 | after registering one more field, the whole output is the old body, then the new field's rendering, just before the close line |
| Rendering.RenderIsElement | UnreflectedSerializer/Program.cs:68-79 | the output is one element: the open line and close line of the outer tag around the fields' renderings |
| Rendering.OverrideKeepsBody | UnreflectedSerializer/Program.cs:85-89 | serializing under another tag changes only the outer open and close lines; the body is the same |
| Samples.GetAddressDescriptor | UnreflectedSerializer/Program.cs:158-164 | a new descriptor tagged `Address` whose body is the `Street` line then the `City` line |
| Samples.GetCountryDescriptor | UnreflectedSerializer/Program.cs:166-172 | a new descriptor tagged `Country` whose body is the `Name` line then the decimal `AreaCode` line |
| Samples.GetPhoneNumberDescriptor | UnreflectedSerializer/Program.cs:174-180 | a new descriptor tagged `PhoneNumber` whose body is a `Country` element then the decimal `Number` line |
| Samples.GetPersonDescriptor | UnreflectedSerializer/Program.cs:146-156 | a new descriptor tagged `Person` whose body is the two name lines, then `HomeAddress`, `WorkAddress`, `CitizenOf` and `MobilePhone` elements, in that order |
| Samples.AddressField | UnreflectedSerializer/Program.cs:151-152 | a composite field over an address descriptor writes the address as an element named by the field |
| Samples.CountryField | UnreflectedSerializer/Program.cs:153 | a composite field over a country descriptor writes the country as an element named by the field |
| Samples.PhoneNumberField | UnreflectedSerializer/Program.cs:154 | a composite field over a phone-number descriptor writes the phone number as an element named by the field |
| Samples.SerializeCountry | UnreflectedSerializer/Program.cs:166-172 | any country is written as a `Country` element holding its name line then its area-code line |
| Samples.CzechRepublicElement | UnreflectedSerializer/Program.cs:132 | the demonstration country is written as `<Country>`, `<Name>Czech Republic</Name>`, `<AreaCode>420</AreaCode>`, `</Country>`, one per line |
| Samples.SerializeCzechRepublic | UnreflectedSerializer/Program.cs:132 | serializing the demonstration country with the country descriptor gives exactly those four lines |
| Samples.SerializePerson | UnreflectedSerializer/Program.cs:143 | any person is written as a `Person` element holding the six fields' renderings in registration order |

## Left out

- `TextWriter`, `StringWriter` and `Console.Out`: the sink is the class `Descriptors.StringWriter` over the text written so far; no real output device is modelled.
- `Environment.NewLine` is fixed to `"\n"`.
- The untyped `Func<object, …>` getters and their downcasts: fields are generic over the instance type, so a failing cast cannot be expressed.
- Formatting.IntToString: `int.ToString()` is modelled as plain decimal with a leading `-`, with no culture-specific formatting, over unbounded integers rather than 32-bit `int`. Every 32-bit value is covered, so nothing is lost for the source's inputs.
- Exceptions and nulls are not modelled: getters are total functions and instances are never null. In the source, an exception thrown while serializing inside `SerializeToString` skips the restore of `TagName` (lines 91-92 are not in a `finally`), which this model cannot show.
- Descriptors.RootDescriptionField: the composite field takes a snapshot of the nested descriptor's tag name and field list when it is constructed. The source holds a reference and calls `SerializeToString` on it at serialization time. Fields registered with the nested descriptor afterwards, the tag swap seen by anyone else holding that descriptor, and a descriptor nested inside itself are therefore not modelled.
- `Main` and the full demonstration person (lines 126-144): the person descriptor and its rendering are modelled for every person (`Samples.GetPersonDescriptor`, `Samples.SerializePerson`). Only the country of the demonstration data is written out as literal text.
