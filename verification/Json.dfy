/** Nested payloads, as Python dictionaries, lists and leaves. */
module Json {

  /** Dictionaries keep their insertion order; `Scalar` stands for a number, a truth value or null. */
  datatype Json =
    Dict(entries: seq<Entry>) | List(items: seq<Json>) | Text(chars: string) | Bytes | Scalar(text: string)

  datatype Entry = Entry(key: string, value: Json)
}
