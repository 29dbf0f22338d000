/** The two error types of the NIT lookup (src/exceptions.py). Each Python constructor
    stores its arguments and hands a formatted message to `Exception.__init__`; here the
    stored arguments are the datatype's fields and the message is a member function. */
module Exceptions {
  import opened Wrappers

  /** The text every `NitNotFoundError` message starts with. */
  const NotFoundPrefix: string := "No se encontró información para el NIT: "

  /** The text every `DataSourceError` message starts with, before the quoted source name. */
  const SourcePrefix: string := "Error en la fuente de datos '"

  /** Raised when no data source knows the NIT. */
  datatype NitNotFoundError = NitNotFoundError(nit: string)
  {
    /** `str(error)`: the fixed prefix followed by the NIT. */
    function Message(): (m: string)
      ensures |m| == |NotFoundPrefix| + |nit|
      ensures m[..|NotFoundPrefix|] == NotFoundPrefix && m[|NotFoundPrefix|..] == nit
    {
      NotFoundPrefix + nit
    }
  }

  /** The exception an adapter caught (an `HTTPError`, a `ConnectionError`, a JSON
      `ValueError`, ...), kept as an opaque token: its class name and its `str()`. */
  datatype OriginalException = OriginalException(type_name: string, text: string)

  /** Raised when a data source fails or answers with something it cannot read. */
  datatype DataSourceError = DataSourceError(source_name: string, original_exception: OriginalException)
  {
    /** `str(error)`: the fixed prefix, the source name in quotes, a colon and the text of
        the caught exception. */
    function Message(): (m: string)
      ensures |m| == |SourcePrefix| + |source_name| + 3 + |original_exception.text|
      ensures m[..|SourcePrefix|] == SourcePrefix
      ensures m[|SourcePrefix|..|SourcePrefix| + |source_name|] == source_name
      ensures m[|SourcePrefix| + |source_name|..|SourcePrefix| + |source_name| + 3] == "': "
      ensures m[|SourcePrefix| + |source_name| + 3..] == original_exception.text
    {
      SourcePrefix + source_name + "': " + original_exception.text
    }
  }

  /** `part` occurs in `s` starting at index `k`. */
  predicate OccursAt(s: string, part: string, k: int)
  {
    0 <= k <= |s| - |part| && s[k..k + |part|] == part
  }

  /** `part in s` for Python strings. */
  predicate Contains(s: string, part: string)
  {
    exists k | 0 <= k <= |s| - |part| :: OccursAt(s, part, k)
  }

  /** Reads the NIT back out of a `NitNotFoundError` message, or None when the text is
      not such a message. */
  function NitOfMessage(msg: string): Option<string>
  {
    if NotFoundPrefix <= msg then Some(msg[|NotFoundPrefix|..]) else None
  }

  /** The message of a `NitNotFoundError` gives back exactly the NIT it was built with,
      so two errors for different NITs never share a message. */
  lemma NotFoundMessageRoundTrip(e: NitNotFoundError)
    ensures NitOfMessage(e.Message()) == Some(e.nit)
  {
    assert e.Message()[..|NotFoundPrefix|] == NotFoundPrefix;
    assert e.Message()[|NotFoundPrefix|..] == e.nit;
  }

  /** The message of a `NitNotFoundError` contains the NIT, as the HTTP handlers rely on
      when they report a 404. */
  lemma NotFoundMessageContainsNit(e: NitNotFoundError)
    ensures Contains(e.Message(), e.nit)
  {
    var msg := e.Message();
    var k := |NotFoundPrefix|;
    assert msg[k..k + |e.nit|] == e.nit;
    assert OccursAt(msg, e.nit, k);
  }

  /** The message of a `DataSourceError` starts with the quoted source name, so it names
      the source that failed. */
  lemma DataSourceMessageNamesSource(e: DataSourceError)
    ensures SourcePrefix + e.source_name + "'" <= e.Message()
    ensures Contains(e.Message(), e.source_name)
  {
    var msg := e.Message();
    var k := |SourcePrefix|;
    assert msg == (SourcePrefix + e.source_name + "'") + (": " + e.original_exception.text);
    assert msg[k..k + |e.source_name|] == e.source_name;
    assert OccursAt(msg, e.source_name, k);
  }
}
