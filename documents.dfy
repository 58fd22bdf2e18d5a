/** Search documents: a mutable mapping from field name to the field's values,
    as far as the spell-check index writer touches it. */
module Documents {
  import opened Wrappers

  /** Names of the fields the writer reads or removes. */
  const COMPANY_ID: string := "companyId"
  const LANGUAGE_ID: string := "languageId"
  const TYPE: string := "type"

  /** The contents of a document: each field name with its values. */
  type Fields = map<string, seq<string>>

  /** `document.get(name)`: the field's first value, or null (`None`) when the
      document has no such field or the field holds no value. */
  function Value(fields: Fields, name: string): (r: Option<string>)
    ensures r.Some? ==> name in fields && fields[name] != [] && r.value == fields[name][0]
    ensures r.None? ==> name !in fields || fields[name] == []
  {
    if name in fields && |fields[name]| > 0 then Some(fields[name][0]) else None
  }

  /** The contents of the document that `createDocument` returns, given the
      contents of the document the base builder produced: the bare language
      field and the generic keyword field are gone, and the keyword text is
      the single value of the field named `localize(languageId, keywordFieldName)`.
      `localize` is `DocumentImpl.getLocalizedName`. */
  function Localize(
    base: Fields, languageId: string, keywords: string, keywordFieldName: string,
    localize: (string, string) -> string): (r: Fields)
    ensures localize(languageId, keywordFieldName) in r
    ensures r[localize(languageId, keywordFieldName)] == [keywords]
    ensures r.Keys == base.Keys - {LANGUAGE_ID, keywordFieldName} + {localize(languageId, keywordFieldName)}
    ensures localize(languageId, keywordFieldName) != LANGUAGE_ID ==> LANGUAGE_ID !in r
    ensures localize(languageId, keywordFieldName) != keywordFieldName ==> keywordFieldName !in r
    ensures forall f :: f in r && f != localize(languageId, keywordFieldName) ==> f in base && r[f] == base[f]
    ensures forall f :: (f in base && f != LANGUAGE_ID && f != keywordFieldName
                         && f != localize(languageId, keywordFieldName)) ==> f in r && r[f] == base[f]
  {
    var removed := base - {LANGUAGE_ID, keywordFieldName};
    removed[localize(languageId, keywordFieldName) := [keywords]]
  }

  /** A document object; callers and the update command share it by reference. */
  class Document {
    var fields: Fields

    constructor (fields: Fields)
      ensures this.fields == fields
    {
      this.fields := fields;
    }

    /** `document.remove(name)`: drops the field if present. */
    method Remove(name: string)
      modifies this
      ensures fields == old(fields) - {name}
    {
      fields := fields - {name};
    }

    /** `document.addKeyword(name, value)`: the field now holds exactly `value`,
        replacing whatever it held before. */
    method AddKeyword(name: string, value: string)
      modifies this
      ensures fields == old(fields)[name := [value]]
    {
      fields := fields[name := [value]];
    }
  }
}
