/** The server action behind the sign-in form: it accepts any non-empty email text and
    sends the browser to the page that asks the user to check their inbox. */
module MagicLink {
  import opened Common
  import opened Forms

  /** What the action ends in: an error object returned to the form, or a redirect. */
  datatype ActionResult = Failed(error: string) | Redirect(location: string)

  /** `requestMagicLink(formData)`. The simulated delay and the log line are not modelled. */
  function RequestMagicLink(entries: seq<Entry>): (r: ActionResult)
    ensures r.Redirect? <==> (Get(entries, "email").Some? && Get(entries, "email").value.Text? &&
                              Get(entries, "email").value.text != "")
    ensures r.Redirect? ==> r.location == "/auth/check-email"
    ensures r.Failed? ==> r.error == "Please provide a valid email address."
  {
    match Get(entries, "email")
    case Some(Text(email)) =>
      if email == "" then Failed("Please provide a valid email address.") else Redirect("/auth/check-email")
    case _ => Failed("Please provide a valid email address.")
  }

  /** Only the first `email` entry is read: a form whose first `email` entry is a file is
      refused whatever follows it, and any text entries before it do not matter. */
  lemma {:induction false} FirstEmailDecides(before: seq<Entry>, f: File, after: seq<Entry>)
    requires forall i :: 0 <= i < |before| ==> before[i].key != "email"
    ensures RequestMagicLink(before + [Entry("email", Upload(f))] + after) == Failed("Please provide a valid email address.")
    decreases |before|
  {
    var entries := before + [Entry("email", Upload(f))] + after;
    if before == [] {
      assert entries[0] == Entry("email", Upload(f));
    } else {
      assert entries[1..] == before[1..] + [Entry("email", Upload(f))] + after;
      FirstEmailDecides(before[1..], f, after);
    }
  }
}
