/** The Foundation value types the request compiler produces. */
module Foundation {
  import opened Wrappers

  type Bytes = seq<bv8>

  /** Foundation's `URLRequest` is a value type: the compiler builds one in a
      local variable and mutates it field by field. `URLRequest(url:)` starts
      with method "GET", no header fields and no body. */
  datatype URLRequest = URLRequest(
    url: string,
    httpMethod: string := "GET",
    headers: map<string, string> := map[],
    httpBody: Option<Bytes> := None)
}
