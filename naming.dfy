/** Document identifiers and collection names (`getKeyField` and
    `getCollection` in gun-tingo.js). Pure string functions. */
module Naming {
  import opened Wrappers

  /** JavaScript truthiness of an optional string: absent and "" are falsy. */
  predicate Truthy(s: Option<string>) {
    s.Some? && s.value != ""
  }

  /** `getKeyField(key, field)`: the `_id` of the document that stores one
      field of a node, or the node key itself when no field is given. */
  function KeyField(key: string, field: Option<string>): (id: string)
    ensures |id| >= |key| && id[..|key|] == key
  {
    if Truthy(field) then key + "_" + field.value else key
  }

  /** Recovers the field from an `_id`, knowing the node key: the inverse of
      `KeyField` for a fixed key. */
  function FieldOf(key: string, id: string): Option<string> {
    if |id| > |key| + 1 && id[..|key|] == key && id[|key|] == '_'
    then Some(id[|key| + 1..])
    else None
  }

  /** A falsy field is the same as no field at all. */
  function Normal(field: Option<string>): Option<string> {
    if Truthy(field) then field else None
  }

  /** Knowing the key, `KeyField` loses nothing about the field: the field
      (up to falsiness) is recovered from the identifier. */
  lemma KeyFieldRoundTrip(key: string, field: Option<string>)
    ensures FieldOf(key, KeyField(key, field)) == Normal(field)
  {
    var id := KeyField(key, field);
    if Truthy(field) {
      assert id[..|key|] == key;
      assert id[|key|] == '_';
      assert id[|key| + 1..] == field.value;
    }
  }

  /** Two fields of the same node never share a document. */
  lemma KeyFieldInjective(key: string, f: Option<string>, g: Option<string>)
    requires KeyField(key, f) == KeyField(key, g)
    ensures Normal(f) == Normal(g)
  {
    KeyFieldRoundTrip(key, f);
    KeyFieldRoundTrip(key, g);
  }

  /** Across different node keys the identifier scheme is not injective: the
      field "b" of node "a" and the whole node "a_b" share the `_id` "a_b". */
  lemma KeyFieldCollidesAcrossKeys()
    ensures KeyField("a", Some("b")) == KeyField("a_b", None)
  {
  }

  /** `\w` of a JavaScript regular expression without the `u` flag. */
  predicate IsWordChar(c: char) {
    ('a' <= c <= 'z') || ('A' <= c <= 'Z') || ('0' <= c <= '9') || c == '_'
  }

  /** `s.replace(/\W/, '_')`: the regular expression has no `g` flag, so only
      the first non-word character is replaced. */
  function ReplaceFirstNonWord(s: string): (r: string)
    ensures |r| == |s|
    ensures (forall k :: 0 <= k < |s| ==> IsWordChar(s[k])) ==> r == s
  {
    if s == [] then []
    else if !IsWordChar(s[0]) then "_" + s[1..]
    else [s[0]] + ReplaceFirstNonWord(s[1..])
  }

  /** When `j` is the first non-word character, exactly that one becomes '_'. */
  lemma {:induction false} ReplacesFirstNonWordAt(s: string, j: nat)
    requires j < |s| && !IsWordChar(s[j])
    requires forall k :: 0 <= k < j ==> IsWordChar(s[k])
    ensures ReplaceFirstNonWord(s) == s[..j] + "_" + s[j + 1..]
    decreases j
  {
    if j == 0 {
      assert ReplaceFirstNonWord(s) == "_" + s[1..];
      assert s[..0] == [];
    } else {
      assert IsWordChar(s[0]);
      assert ReplaceFirstNonWord(s) == [s[0]] + ReplaceFirstNonWord(s[1..]);
      ReplacesFirstNonWordAt(s[1..], j - 1);
      assert s[..j] == [s[0]] + s[1..][..j - 1];
      assert s[j + 1..] == s[1..][j..];
      assert s[..j] + "_" + s[j + 1..] == [s[0]] + (s[1..][..j - 1] + "_" + s[1..][j..]);
    }
  }

  /** `s.substr(0, 2)`. */
  function Prefix2(s: string): string {
    if |s| <= 2 then s else s[..2]
  }

  /** `getCollection(keyField)`: a sharding helper the adapter never calls. */
  function Collection(keyField: Option<string>): (name: string)
    ensures !Truthy(keyField) ==> name == "gun"
    ensures Truthy(keyField) ==> 1 <= |name| <= 2 && |name| == |Prefix2(keyField.value)|
  {
    if Truthy(keyField) then ReplaceFirstNonWord(Prefix2(keyField.value)) else "gun"
  }

  /** The name keeps the key's first characters, with only the first unsafe
      one replaced by '_'. */
  lemma CollectionOfKey(key: string)
    requires key != ""
    ensures var p := Prefix2(key);
            && p == key[..if |key| <= 2 then |key| else 2]
            && ((forall k :: 0 <= k < |p| ==> IsWordChar(p[k])) ==> Collection(Some(key)) == p)
            && (!IsWordChar(p[0]) ==> Collection(Some(key)) == "_" + p[1..])
            && (IsWordChar(p[0]) && |p| == 2 && !IsWordChar(p[1]) ==> Collection(Some(key)) == [p[0], '_'])
  {
    var p := Prefix2(key);
    if !IsWordChar(p[0]) {
      ReplacesFirstNonWordAt(p, 0);
    } else if |p| == 2 && !IsWordChar(p[1]) {
      ReplacesFirstNonWordAt(p, 1);
      assert p[..1] + "_" + p[2..] == [p[0], '_'];
    }
  }

  /** Only the first unsafe character is replaced: a key starting with two
      of them keeps the second. */
  lemma CollectionReplacesOnlyFirst()
    ensures Collection(Some("$%x")) == "_%"
  {
    assert !IsWordChar('$');
  }
}
