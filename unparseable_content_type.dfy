/**
 * The exception raised for a content type that cannot be parsed: its message
 * is a fixed template filled with the offending string, its code is fixed,
 * and it keeps the string for its getter.
 */
module UnparseableContentType {
  import opened Wrappers

  const MessageTemplate: string := "Unparseable content type \"%s\""
  const Code: int := 0

  /** The literal text of the template before and after its one conversion. */
  const MessagePrefix: string := "Unparseable content type \""
  const MessageSuffix: string := "\""

  datatype UnparseableContentTypeException = UnparseableContentTypeException(
    message: string,
    code: int,
    contentTypeString: string)
  {
    /** The fields agree as the constructor sets them: the message is the filled template and the code is fixed. */
    predicate Wellformed() {
      message == MessagePrefix + contentTypeString + MessageSuffix && code == Code
    }

    /** The string the exception was built from; for a well-formed exception it is the one its message names. */
    function GetContentType(): (s: string)
      ensures Wellformed() ==> ContentTypeFromMessage(message) == Some(s)
    {
      RecoverFromFilledTemplate(contentTypeString);
      contentTypeString
    }
  }

  /**
   * sprintf for a template whose only conversion specification is %s: the
   * first "%s" is replaced by the argument, every other character is copied.
   */
  function Sprintf(template: string, arg: string): (r: string)
    ensures '%' !in template ==> r == template
    decreases |template|
  {
    if |template| < 2 then template
    else if template[0] == '%' && template[1] == 's' then arg + template[2..]
    else [template[0]] + Sprintf(template[1..], arg)
  }

  /** sprintf with a template "prefix%ssuffix", whose prefix holds no '%', yields prefix, argument, suffix. */
  lemma {:induction false} SprintfSubstitutes(prefix: string, suffix: string, arg: string)
    requires '%' !in prefix
    ensures Sprintf(prefix + "%s" + suffix, arg) == prefix + arg + suffix
  {
    var template := prefix + "%s" + suffix;
    if prefix == [] {
      assert template == "%s" + suffix;
      assert template[2..] == suffix;
    } else {
      assert template[0] == prefix[0] && template[0] != '%';
      assert template[1..] == prefix[1..] + "%s" + suffix;
      SprintfSubstitutes(prefix[1..], suffix, arg);
      calc {
        Sprintf(template, arg);
        [prefix[0]] + Sprintf(prefix[1..] + "%s" + suffix, arg);
        [prefix[0]] + (prefix[1..] + arg + suffix);
        { assert [prefix[0]] + prefix[1..] == prefix; }
        prefix + arg + suffix;
      }
    }
  }

  lemma TemplateSplits()
    ensures MessageTemplate == MessagePrefix + "%s" + MessageSuffix
    ensures '%' !in MessagePrefix
  {
  }

  /** The exception built from a content-type string. */
  function New(contentTypeString: string): (e: UnparseableContentTypeException)
    ensures e.message == MessagePrefix + contentTypeString + MessageSuffix
    ensures e.code == 0
    ensures e.GetContentType() == contentTypeString
    ensures e.Wellformed()
  {
    TemplateSplits();
    SprintfSubstitutes(MessagePrefix, MessageSuffix, contentTypeString);
    UnparseableContentTypeException(Sprintf(MessageTemplate, contentTypeString), Code, contentTypeString)
  }

  /** The content-type string a message was made from, or None when the message does not have the template's shape. */
  function ContentTypeFromMessage(message: string): Option<string> {
    if |message| >= |MessagePrefix| + |MessageSuffix|
       && message[..|MessagePrefix|] == MessagePrefix
       && message[|message| - |MessageSuffix|..] == MessageSuffix
    then Some(message[|MessagePrefix|..|message| - |MessageSuffix|])
    else None
  }

  /** The string that fills the template is recovered from the filled template. */
  lemma RecoverFromFilledTemplate(contentTypeString: string)
    ensures ContentTypeFromMessage(MessagePrefix + contentTypeString + MessageSuffix) == Some(contentTypeString)
  {
    var m := MessagePrefix + contentTypeString + MessageSuffix;
    assert m[..|MessagePrefix|] == MessagePrefix;
    assert m[|m| - |MessageSuffix|..] == MessageSuffix;
    assert m[|MessagePrefix|..|m| - |MessageSuffix|] == contentTypeString;
  }

  /** The content-type string is recovered from the message. */
  lemma MessageRoundTrip(contentTypeString: string)
    ensures ContentTypeFromMessage(New(contentTypeString).message) == Some(contentTypeString)
  {
    RecoverFromFilledTemplate(contentTypeString);
  }

  /** Every message of the template's shape is the message of exactly the string recovered from it. */
  lemma MessageFromRecovered(message: string, contentTypeString: string)
    requires ContentTypeFromMessage(message) == Some(contentTypeString)
    ensures New(contentTypeString).message == message
  {
    var p, s := |MessagePrefix|, |MessageSuffix|;
    assert message == message[..p] + message[p..|message| - s] + message[|message| - s..];
  }

  /** A well-formed exception is exactly the one the constructor builds from the string it keeps. */
  lemma WellformedIsConstructed(e: UnparseableContentTypeException)
    requires e.Wellformed()
    ensures e == New(e.GetContentType())
  {
  }

  /** Distinct content-type strings give distinct messages. */
  lemma MessagesDistinct(a: string, b: string)
    requires a != b
    ensures New(a).message != New(b).message
  {
    MessageRoundTrip(a);
    MessageRoundTrip(b);
  }
}
