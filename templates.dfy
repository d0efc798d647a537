/** Email templates and their three-part execution (template.go). */
module Templates {
  import opened Results

  /** A parsed template as the template engine hands it back; its contents are
      opaque to this model, only its identity matters. */
  datatype Handle = Handle(id: nat)

  /** An email template: the subject and HTML parts are always present, the text
      part may be absent (a nil `Text` field). */
  datatype Template = Template(subject: Handle, html: Handle, text: Option<Handle>)

  /** What executing one parsed template against some data writes to its buffer,
      and the error it stops with, if any (output written before a failure stays). */
  datatype Rendered = Rendered(output: string, err: Option<Error>)

  /** The template engine's `Execute`, left uninterpreted: a pure function of the
      parsed template and the data. */
  type Renderer<-D> = (Handle, D) -> Rendered

  /** What a caller of `Execute` sees: the contents of the three buffers it gets
      back, in the order returned, and the error. */
  datatype Execution = Execution(subject: string, html: string, text: string, err: Option<Error>)

  /** A `bytes.Buffer`: an appendable byte string. */
  class Buffer {
    var contents: string

    constructor ()
      ensures contents == []
    {
      contents := [];
    }

    method Write(s: string)
      modifies this
      ensures contents == old(contents) + s
    {
      contents := contents + s;
    }
  }

  /** Subject and HTML rendered without error, and the text part is present and failed. */
  predicate TextFailed<D>(t: Template, data: D, render: Renderer<D>)
  {
    && render(t.subject, data).err.None?
    && render(t.html, data).err.None?
    && t.text.Some?
    && render(t.text.value, data).err.Some?
  }

  /** What `Template.Execute` returns, as written: subject, then HTML, then the
      optional text part, stopping at the first error; when the text part fails,
      the text buffer is returned in the HTML slot as well. */
  function Executed<D>(t: Template, data: D, render: Renderer<D>): (r: Execution)
    ensures r.err.None? <==>
      && render(t.subject, data).err.None?
      && render(t.html, data).err.None?
      && (t.text.Some? ==> render(t.text.value, data).err.None?)
    ensures r.subject == render(t.subject, data).output
    ensures render(t.subject, data).err.Some? ==>
      r.html == [] && r.text == [] && r.err == render(t.subject, data).err
    ensures render(t.subject, data).err.None? && render(t.html, data).err.Some? ==>
      r.html == render(t.html, data).output && r.text == [] && r.err == render(t.html, data).err
    ensures render(t.subject, data).err.None? && render(t.html, data).err.None? && t.text.None? ==>
      r.html == render(t.html, data).output && r.text == [] && r.err.None?
    ensures TextFailed(t, data, render) ==>
      r.html == render(t.text.value, data).output && r.text == r.html && r.err == render(t.text.value, data).err
    ensures r.err.None? && t.text.Some? ==>
      r.html == render(t.html, data).output && r.text == render(t.text.value, data).output
  {
    var s := render(t.subject, data);
    if s.err.Some? then Execution(s.output, [], [], s.err)
    else
      var h := render(t.html, data);
      if h.err.Some? then Execution(s.output, h.output, [], h.err)
      else if t.text.None? then Execution(s.output, h.output, [], None)
      else
        var x := render(t.text.value, data);
        if x.err.Some? then Execution(s.output, x.output, x.output, x.err)
        else Execution(s.output, h.output, x.output, None)
  }

  /** What `Execute` evidently means to return: identical to `Executed` except that
      a failing text part leaves the HTML render in the HTML slot. */
  function ExecutedAsIntended<D>(t: Template, data: D, render: Renderer<D>): (r: Execution)
    ensures r.subject == render(t.subject, data).output
    ensures render(t.subject, data).err.None? ==> r.html == render(t.html, data).output
    ensures r.err == Executed(t, data, render).err && r.text == Executed(t, data, render).text
    ensures !TextFailed(t, data, render) ==> r == Executed(t, data, render)
  {
    var e := Executed(t, data, render);
    if TextFailed(t, data, render) then e.(html := render(t.html, data).output) else e
  }

  /** As written, a text failure hides the HTML render whenever the two outputs differ. */
  lemma TextFailureHidesHtml<D>(t: Template, data: D, render: Renderer<D>)
    requires TextFailed(t, data, render)
    requires render(t.html, data).output != render(t.text.value, data).output
    ensures Executed(t, data, render).html != render(t.html, data).output
    ensures ExecutedAsIntended(t, data, render).html == render(t.html, data).output
  {
  }

  /** A concrete instance: the subject renders "hello JANE", the HTML part
      "<p>dear JANE</p>", and the text part writes "dear " and then fails; the
      caller receives "dear " in the HTML slot. */
  lemma TextFailureExample()
    ensures var t := Template(Handle(0), Handle(1), Some(Handle(2)));
            var render: Renderer<string> := (h: Handle, d: string) =>
              if h.id == 0 then Rendered("hello JANE", None)
              else if h.id == 1 then Rendered("<p>dear JANE</p>", None)
              else Rendered("dear ", Some(Other("missing key")));
            && Executed(t, "Jane", render) == Execution("hello JANE", "dear ", "dear ", Some(Other("missing key")))
            && ExecutedAsIntended(t, "Jane", render).html == "<p>dear JANE</p>"
  {
  }

  /** `Template.Execute`: three fresh buffers, rendered into in order with early
      returns. On a text failure the same (text) buffer is returned twice. */
  method Execute<D>(t: Template, data: D, render: Renderer<D>)
      returns (subject: Buffer, html: Buffer, text: Buffer, err: Option<Error>)
    ensures fresh(subject) && fresh(html) && fresh(text)
    ensures subject != html && subject != text
    ensures html == text <==> TextFailed(t, data, render)
    ensures Execution(subject.contents, html.contents, text.contents, err) == Executed(t, data, render)
  {
    subject := new Buffer();
    html := new Buffer();
    text := new Buffer();
    var s := render(t.subject, data);
    subject.Write(s.output);
    if s.err.Some? {
      return subject, html, text, s.err;
    }
    var h := render(t.html, data);
    html.Write(h.output);
    if h.err.Some? {
      return subject, html, text, h.err;
    }
    if t.text.Some? {
      var x := render(t.text.value, data);
      text.Write(x.output);
      if x.err.Some? {
        return subject, text, text, x.err;
      }
    }
    return subject, html, text, None;
  }
}
