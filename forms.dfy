/** Values shared by both registration wizards: attachments, field values, error maps. */
module Forms {
  import opened Wrappers

  /** A browser `File` chosen by the user, treated as an opaque token. */
  datatype FileToken = FileToken(id: nat)

  /** The value a wizard holds under one field name. */
  datatype FieldValue =
    | TextValue(text: string)
    | Flag(flag: bool)
    | Choices(choices: seq<string>)
    | Images(images: seq<FileToken>)
    | Attachment(file: Option<FileToken>)

  /** `files?.[0] || null`: the first chosen file, or null when none was chosen. */
  function FirstOrNull(files: seq<FileToken>): (r: Option<FileToken>)
    ensures r.Some? <==> |files| > 0
    ensures r.Some? ==> r.value == files[0]
  {
    if |files| > 0 then Some(files[0]) else None
  }

  /**
   * `if (errors[name]) setErrors({...errors, [name]: ''})`: a truthy message for
   * `name` becomes the empty string; the key is kept, every other entry is kept.
   */
  function ClearError<K>(errors: map<K, string>, name: K): (r: map<K, string>)
    ensures r.Keys == errors.Keys
    ensures forall k :: k in errors && k != name ==> r[k] == errors[k]
    ensures name in errors ==> r[name] == ""
  {
    if name in errors && errors[name] != "" then errors[name := ""] else errors
  }

  /**
   * `newErrors.name = message` when a rule produced a message, nothing otherwise:
   * one step of the rule chain that fills an error map.
   */
  function Put<K>(m: map<K, string>, name: K, message: Option<string>): (r: map<K, string>)
    ensures r.Keys == if message.Some? then m.Keys + {name} else m.Keys
    ensures message.Some? ==> r[name] == message.value
    ensures forall k :: k in m && k != name ==> r[k] == m[k]
  {
    if message.Some? then m[name := message.value] else m
  }

  /** The message stored for a key, None when the map has no entry for it. */
  function Lookup<K>(m: map<K, string>, k: K): Option<string> {
    if k in m then Some(m[k]) else None
  }

  /** After `m.name = message`, a key holds the new message if it was the one assigned, else its old entry. */
  lemma LookupPut<K>(m: map<K, string>, name: K, message: Option<string>, k: K)
    ensures Lookup(Put(m, name, message), k) == if k == name && message.Some? then message else Lookup(m, k)
  {
  }

  /** `Object.keys(m).length === 0` holds exactly when the map has no key. */
  lemma NoKeysIffEmpty<K>(m: map<K, string>)
    ensures |m| == 0 <==> m.Keys == {}
  {
    if |m| == 0 {
      assert m == map[];
    } else {
      var k :| k in m;
    }
  }
}
