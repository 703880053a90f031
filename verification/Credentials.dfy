/** Credentials as they arrive: secrets, what is parsed out of them, and the event
    stream that the client service consumes. */
module CredentialEvents {
  import opened Prelude

  datatype Credentials = Credentials(
    url: string,
    username: string,
    password: string,
    caFile: string,
    insecure: bool,
    caBundle: string
  )

  function Field(data: map<string, string>, key: string): string {
    if key in data then data[key] else ""
  }

  // Go's strconv.ParseBool.
  function ParseBool(s: string): Option<bool> {
    if s in {"1", "t", "T", "TRUE", "true", "True"} then Some(true)
    else if s in {"0", "f", "F", "FALSE", "false", "False"} then Some(false)
    else None
  }

  function FromK8sSecret(data: map<string, string>): Option<Credentials> {
    var insecure := ParseBool(Field(data, "ovirt_insecure"));
    if insecure.None? then None
    else Some(Credentials(Field(data, "ovirt_url"), Field(data, "ovirt_username"), Field(data, "ovirt_password"),
                          Field(data, "ovirt_cafile"), insecure.value, Field(data, "ovirt_ca_bundle")))
  }

  // Something that arrived on the channel; file is where a CA bundle could be
  // written, if it could be written at all.
  datatype Event = NotASecret | Secret(data: map<string, string>, file: Option<string>)

  // A bundle replaces the CA file by the one it is written to.
  function WriteCA(c: Credentials, file: Option<string>): Option<Credentials> {
    if c.caBundle == "" then Some(c)
    else if file.None? then None
    else Some(c.(caFile := file.value))
  }

  // The credentials of a valid event.
  function Accepted(e: Event): Option<Credentials> {
    if e.NotASecret? then None
    else
      var parsed := FromK8sSecret(e.data);
      if parsed.None? then None else WriteCA(parsed.value, e.file)
  }

  const TRUTHS := {"1", "t", "T", "TRUE", "true", "True"}
  const FALSEHOODS := {"0", "f", "F", "FALSE", "false", "False"}

  // An event is valid exactly if it is a secret whose insecure field is one of
  // twelve words, and its CA bundle, if it has one, could be written. The
  // credentials are then the fields of the secret, with the CA file replaced by
  // the one the bundle was written to.
  lemma AcceptedExactly(e: Event, c: Credentials)
    ensures Accepted(e) == Some(c) <==>
            && e.Secret?
            && Field(e.data, "ovirt_insecure") in (if c.insecure then TRUTHS else FALSEHOODS)
            && c.url == Field(e.data, "ovirt_url") && c.username == Field(e.data, "ovirt_username")
            && c.password == Field(e.data, "ovirt_password") && c.caBundle == Field(e.data, "ovirt_ca_bundle")
            && (if c.caBundle == "" then c.caFile == Field(e.data, "ovirt_cafile") else e.file == Some(c.caFile))
  {
  }

  // A field that the secret does not have is empty.
  lemma FieldsTaken(data: map<string, string>, file: Option<string>, c: Credentials)
    requires Accepted(Secret(data, file)) == Some(c)
    ensures c.url == (if "ovirt_url" in data then data["ovirt_url"] else "")
    ensures c.username == (if "ovirt_username" in data then data["ovirt_username"] else "")
    ensures c.password == (if "ovirt_password" in data then data["ovirt_password"] else "")
    ensures c.caBundle == (if "ovirt_ca_bundle" in data then data["ovirt_ca_bundle"] else "")
    ensures c.caFile == (if c.caBundle != "" then file.value
                         else if "ovirt_cafile" in data then data["ovirt_cafile"] else "")
  {
  }

  // A secret without the insecure field is never accepted.
  lemma InsecureIsRequired(data: map<string, string>, file: Option<string>)
    requires "ovirt_insecure" !in data
    ensures Accepted(Secret(data, file)).None?
  {
  }

  // The credentials of the valid events, in order.
  function ValidOnes(events: seq<Event>): seq<Credentials> {
    if events == [] then []
    else
      var last := Accepted(events[|events| - 1]);
      ValidOnes(events[..|events| - 1]) + if last.Some? then [last.value] else []
  }

  function Newest(events: seq<Event>): Option<Credentials> {
    var valid := ValidOnes(events);
    if valid == [] then None else Some(valid[|valid| - 1])
  }

  lemma ValidOnesNext(events: seq<Event>, e: Event)
    ensures ValidOnes(events + [e]) == ValidOnes(events) + if Accepted(e).Some? then [Accepted(e).value] else []
    ensures Newest(events + [e]) == if Accepted(e).Some? then Accepted(e) else Newest(events)
  {
  }
}
