# Verified model of the serde, axum and tracing demos

This project is a Dafny model of three example programs from a Rust
ecosystem tutorial repository. Each one is modelled as far as its own logic
goes, and the promises it makes are proved about the model:

- `examples/axum_serde.rs` is a small HTTP service holding one shared user
  record.
  - GET returns a copy of the record.
  - PATCH overwrites the fields the request body carries (`age`, `skills`)
    and answers with the updated record.
  - Module `UserPatch` models it. The shared `Arc<Mutex<User>>` becomes the
    class `SharedUser`, whose fields the PATCH method updates in place. The
    value-level function `Patched` specifies that method.
- `examples/axum_tracing.rs` configures the OTLP span exporter from the
  environment and extracts a remote trace context from request headers.
  Module `OtlpExport` models:
  - endpoint precedence: `OTEL_EXPORTER_OTLP_TRACES_ENDPOINT`, then
    `OTEL_EXPORTER_OTLP_ENDPOINT`, then `http://127.0.0.1:4317`;
  - protocol selection, with `grpc` as the default and `http` /
    `http/protobuf` choosing OTLP/HTTP;
  - the `/v1/traces` suffix that is added only when it is missing;
  - the empty-header guard of `extract_remote_context`.
- `examples/serde1.rs` gives a `User` record a custom JSON form.
  - Module `SealedData` models the sealed-string format: ChaCha20-Poly1305
    (RFC 8439) under the fixed 32-byte key. The frame is the 12-byte nonce
    followed by the ciphertext, written in URL-safe unpadded base64
    (section 5 of RFC 4648). `decrypt` splits the frame at offset 12.
  - Module `UserJson` models the serde attributes on `User` and
    `WorkState`:
    - camelCase field keys, with `age` renamed to `privateAge`;
    - `skills` skipped when empty and defaulted when absent;
    - `WorkState` adjacently tagged with `type` and `details`, and its
      variants camel-cased;
    - `data` in base64;
    - `sensitive` sealed through `Display` / `FromStr`;
    - URIs through their display form.
  - The central result is `UserJson.RoundTrip`: a serialised user
    deserialises to the same user, whatever nonce sealed its secret.

Module `Common` holds the shared vocabulary: Rust's `Option` and `Result`,
the `u8` byte, and a `Codec` (a library's encode and decode functions
together with the round-trip promise the library makes).

Library code is given to the model as parameters, each with the promise the
library makes:

- the cipher (`SealedData.Aead`, which must satisfy `IsChaCha20Poly1305`);
- base64, RFC 3339 dates (chrono), URI display and parsing (`http::Uri`)
  and UTF-8 (each a `Common.Codec`);
- the OTLP propagator (a function from headers to a span context).

Inputs from the outside world are also parameters:

- an environment variable is an `Option<string>`, where `None` means unset
  or not valid Unicode (the two cases where `std::env::var` fails);
- the random nonce from `OsRng` is a `SealedData.Nonce` argument.

The Rust panics that the code can reach are modelled as error values:

- in `decrypt`, slicing `decoded[..12]` when fewer than 12 bytes remain
  gives `ShortInput`;
- in `decrypt`, `unwrap` on a failed authentication gives
  `AuthenticationFailed`;
- `DecryptError.IsPanic` tells these two panics apart from the ordinary
  `InvalidBase64` error;
- in `UserJson.DeError`, a panic is `Panicked`.

## Model

| member | source | states |
|---|---|---|
| UserPatch.Patched | examples/axum_serde.rs:88-95 | the patched record keeps its name; each of age and skills is the update's value when the update carries one and the old value otherwise |
| UserPatch.PatchedIdempotent | examples/axum_serde.rs:55 | applying the same PATCH twice leaves the record as applying it once |
| UserPatch.EmptyPatchIsIdentity | examples/axum_serde.rs:89-94 | a PATCH whose body carries no field leaves the record unchanged |
| UserPatch.PatchedSequence | examples/axum_serde.rs:89-94 | two PATCHes in a row act as one whose fields come from the second and fall back to the first |
| UserPatch.SharedUser.constructor | examples/axum_serde.rs:34-39 | the shared record starts out holding the initial user |
| UserPatch.SharedUser.Get | examples/axum_serde.rs:58-70 | GET returns a copy equal to the current record, field by field, and changes nothing |
| UserPatch.SharedUser.Update | examples/axum_serde.rs:84-96 | PATCH updates the shared record in place to `Patched` of its old value, never touches the name, and answers with the new record |
| UserPatch.RepeatedUpdate | examples/axum_serde.rs:55 | two identical PATCH requests give the same answer, and both answers equal the final record, which is the record patched once |
| OtlpExport.SelectEndpoint | examples/axum_tracing.rs:215-217 | the per-signal endpoint wins, then the general endpoint, then `http://127.0.0.1:4317` |
| OtlpExport.SelectProtocol | examples/axum_tracing.rs:226-227 | the configured protocol, or `grpc` when unset |
| OtlpExport.HttpTracesEndpoint | examples/axum_tracing.rs:238-242 | the result always ends with `/v1/traces`; an endpoint that already ends with it is unchanged, any other gets it appended |
| OtlpExport.HttpTracesEndpointIdempotent | examples/axum_tracing.rs:238-242 | normalising an already normalised endpoint changes nothing |
| OtlpExport.HttpTracesEndpointExtends | examples/axum_tracing.rs:238-242 | normalisation only appends: the endpoint is a prefix of the result, which is at most `/v1/traces` longer |
| OtlpExport.IsHttpProtocol | examples/axum_tracing.rs:236 | a protocol selecting OTLP/HTTP begins with `http` |
| OtlpExport.OnlyExactHttpNamesSelectHttp | examples/axum_tracing.rs:236 | exactly `http` and `http/protobuf` select HTTP: the default `grpc`, `HTTP`, `https` and `http/json` do not |
| OtlpExport.SelectExporter | examples/axum_tracing.rs:236-261 | the HTTP exporter is built exactly when the protocol is `http/protobuf` or `http`, with the normalised endpoint; otherwise the gRPC exporter gets the endpoint untouched |
| OtlpExport.DefaultsToGrpc | examples/axum_tracing.rs:226-227 | with no protocol configured the gRPC exporter is used with the selected endpoint as is |
| OtlpExport.UnconfiguredExporter | examples/axum_tracing.rs:215-227 | with no variable set the exporter is gRPC to `http://127.0.0.1:4317` |
| OtlpExport.HttpExporterEndpoint | examples/axum_tracing.rs:236-246 | every HTTP exporter endpoint ends with `/v1/traces` and is a fixed point of normalisation |
| OtlpExport.ExtractRemoteContext | examples/axum_tracing.rs:284-297 | no headers gives no context; a returned context is the propagator's and is valid; with headers present, a valid extracted context is returned |
| OtlpExport.EmptyHeadersIgnorePropagator | examples/axum_tracing.rs:286-288 | on an empty header map the result does not depend on the propagator |
| SealedData.KeyFromSlice | examples/serde1.rs:182 | converting a byte slice into a cipher key succeeds exactly when it is 32 bytes long, and keeps the bytes |
| SealedData.KeyConverts | examples/serde1.rs:35-37 | the hard-coded key is 32 bytes, so its conversion succeeds |
| SealedData.Frame | examples/serde1.rs:185 | the frame is the nonce followed by the ciphertext: its length is their sum, its first 12 bytes are the nonce and the rest is the ciphertext |
| SealedData.Split | examples/serde1.rs:246-247 | the split at offset 12 exists exactly when at least 12 bytes were decoded, and framing its parts rebuilds the input |
| SealedData.SplitFrame | examples/serde1.rs:246-247 | splitting a frame recovers the nonce and ciphertext it was built from |
| SealedData.FrameInjective | examples/serde1.rs:185 | equal frames have equal nonces and equal ciphertexts |
| SealedData.Encrypt | examples/serde1.rs:181-188 | the encrypted string decodes to the nonce followed by the data sealed under the key and that nonce, 12 + plaintext length + 16 bytes in all; `DecryptEncrypt` proves that `Decrypt` inverts it |
| SealedData.Decrypt | examples/serde1.rs:243-249 | invalid base64 is an error; fewer than 12 decoded bytes is the slice panic; otherwise the result is the cipher's opening of bytes 12.. under bytes ..12, and a failed opening is the unwrap panic |
| SealedData.DecryptEncrypt | examples/serde1.rs:181-249 | decrypting an encryption gives the plaintext back, for every nonce |
| UserJson.PascalCaseFrom | examples/serde1.rs:49 | the PascalCase form has no `_` and is no longer than the snake_case name |
| UserJson.CamelCaseVariant | examples/serde1.rs:99 | a camel-cased variant name keeps its length and every letter after the first, and lower-cases the first |
| UserJson.CamelCaseField | examples/serde1.rs:49 | a camel-cased field name contains no `_` |
| UserJson.FieldKey | examples/serde1.rs:49-53 | a field's JSON key never contains `_`; `age` is written `privateAge`, and any other camel-cased name is no longer than the Rust name |
| UserJson.PascalCaseOfWord | examples/serde1.rs:49 | a name without `_` keeps its letters, with only the first possibly capitalised |
| UserJson.PascalCaseOfJoin | examples/serde1.rs:49 | an `_` ends one word and capitalises the next |
| UserJson.CamelCaseOfWord | examples/serde1.rs:49 | a lower-case single word is its own camelCase |
| UserJson.PascalCaseOfTwoWords | examples/serde1.rs:49 | a two-word name in PascalCase has both words capitalised and the `_` gone |
| UserJson.LowerOfUpper | examples/serde1.rs:49 | lower-casing an upper-cased lower-case ASCII letter gives it back |
| UserJson.CamelCaseVariantOfCons | examples/serde1.rs:99 | camelCase lower-cases only the first letter of a name |
| UserJson.PascalCaseOfLeadingWord | examples/serde1.rs:49 | a leading word is capitalised and the rest after its `_` is PascalCased |
| UserJson.CamelCaseOfJoin | examples/serde1.rs:49 | a lower-case first word stays as it is, and what follows its `_` is PascalCased |
| UserJson.CamelCaseOfThreeWords | examples/serde1.rs:49 | a three-word name in camelCase keeps the first word and capitalises the other two |
| UserJson.WordKeysFollowRenameRules | examples/serde1.rs:49-57 | `name`, `skills` and `state` keep their names, and `age` is written as `privateAge` |
| UserJson.MoreWordKeysFollowRenameRules | examples/serde1.rs:58-67 | `data`, `sensitive` and `url` keep their names |
| UserJson.DateOfBirthKeyFollowsRenameRule | examples/serde1.rs:54 | `date_of_birth` is written as `dateOfBirth` |
| UserJson.VariantTagsFollowRenameRule | examples/serde1.rs:99-104 | the variants are tagged `working`, `onLeave` and `terminated` |
| UserJson.EncodeSeq | examples/serde1.rs:66-67 | a vector becomes an array of its elements' encodings, in order |
| UserJson.DecodeSeq | examples/serde1.rs:66-67 | an array decodes exactly when every element decodes, giving the elements' values in order |
| UserJson.DecodeEncodeSeq | examples/serde1.rs:66-67 | when each element round-trips, so does the array |
| UserJson.ExpectString | examples/serde1.rs:51 | a string value is accepted exactly when it is a JSON string |
| UserJson.ExpectByte | examples/serde1.rs:53 | a `u8` is accepted exactly when it is a number in 0..255 |
| UserJson.Parse | examples/serde1.rs:64-67 | `FromStr` succeeds exactly when the library parser accepts the text; otherwise the error is an invalid value under the field's key |
| UserJson.Required | examples/serde1.rs:47-68 | a field without a default must be present, and its value is read |
| UserJson.StringField | examples/serde1.rs:51 | a string field is read exactly when it is present and a JSON string |
| UserJson.ParsedField | examples/serde1.rs:149-158 | a parsed field is read exactly when its key holds a string the library parser accepts, and is what the parser returns; an encoded value reads back as itself |
| UserJson.EmitSkills | examples/serde1.rs:55-56 | the skills entry is left out exactly when the vector is empty |
| UserJson.ReadSkills | examples/serde1.rs:55-56 | an absent skills entry defaults to the empty vector, and a non-array is a type error; an array is read exactly when every item is a string, and then the items in order, so `[]` reads as empty |
| UserJson.SkillsRoundTrip | examples/serde1.rs:55-56 | skills, empty or not, read back as written |
| UserJson.EncodeState | examples/serde1.rs:98-104 | a work state is an object with a `type` tag and a `details` payload; `terminated` has no payload |
| UserJson.DecodeState | examples/serde1.rs:98-104 | a non-object or a missing tag is an error and an unknown tag is an unknown variant; a decoded state carries the tag that was read, `working` holds the role in `details`, `onLeave` holds the date the parser reads from `details`, and `terminated` has no `details` or a `null` one; conversely a well-formed tagged object is accepted (a string role, a date the parser accepts, an absent or `null` payload for `terminated`), whatever other keys it has |
| UserJson.StateRoundTrip | examples/serde1.rs:98-104 | every work state reads back from its tagged form |
| UserJson.DisplaySensitive | examples/serde1.rs:251-256 | the displayed text decrypts to the UTF-8 bytes of the secret |
| UserJson.ParseSensitive | examples/serde1.rs:258-266 | the parser panics exactly when decryption does; it succeeds exactly when decryption succeeds and the bytes are UTF-8, and then holds the decoded text |
| UserJson.SensitiveRoundTrip | examples/serde1.rs:251-266 | a sealed secret reads back as itself |
| UserJson.ParseUri | examples/serde1.rs:66-67 | a URI element is accepted exactly when it is a string that the URI parser accepts |
| UserJson.Serialize | examples/serde1.rs:47-68 | the object has the seven keys other than `skills`, plus `skills` exactly when there are skills; the name and age are stored under their keys |
| UserJson.SerializedFields | examples/serde1.rs:47-68 | each key holds its field in the form its attribute prescribes (an unfolding of `Serialize` used by `RoundTrip`) |
| UserJson.RustNamesAreNotKeys | examples/serde1.rs:52-54 | the Rust names `age` and `date_of_birth` never appear as keys, while `privateAge` and `dateOfBirth` always do |
| UserJson.KeyNames | examples/serde1.rs:52-54 | `age` and `date_of_birth` are not among the possible keys, while `privateAge` and `dateOfBirth` are required |
| UserJson.Deserialize | examples/serde1.rs:47-68 | a missing required key is an error; a decoded user's name and age are the stored ones; an absent skills key gives no skills (`DeserializedFields` gives every other field, `FieldsReadBack` the converse) |
| UserJson.FieldsReadBack | examples/serde1.rs:47-68 | an object whose every field reads back as a user's field deserialises to that user |
| UserJson.DeserializedFields | examples/serde1.rs:47-68 | the converse of `FieldsReadBack`: every field of a deserialised user is what its key holds, read as its attribute prescribes, so an object with a malformed field is rejected |
| UserJson.RoundTrip | examples/serde1.rs:131-134 | a serialised user deserialises to the same user, for every nonce |
| UserJson.UnknownKeysIgnored | examples/serde1.rs:47-68 | a key that is not one of the record's own has no effect on deserialisation |

## Left out

- Networking, routing and serving (`TcpListener`, `Router`, `axum::serve`) are not modelled. The request handlers are modelled as plain calls.
- The `Mutex` locking in `examples/axum_serde.rs` is not modelled. Each request is one atomic method call on `SharedUser`, and concurrent interleavings are not modelled.
- In `examples/axum_tracing.rs`, installing the subscriber, building the tracer provider and the `Resource`, the spans, the sleeps and the shutdown are I/O and library set-up. They are not modelled.
  - The exporter is modelled only by its kind and its endpoint.
- The `HeaderExtractor` adapter and the W3C propagator are not modelled. They are library code, and they enter as the `propagate` parameter.
- ChaCha20-Poly1305, base64, RFC 3339 dates, URI parsing and UTF-8 are library code. They enter as parameters, each with the promise its library makes.
- SealedData.Encrypt: the `Err` that `cipher.encrypt` returns for a plaintext beyond the cipher's length limit, which `unwrap` turns into a panic, is not modelled. It only happens for plaintexts longer than the 2^38 - 64 bytes that section 2.8 of RFC 8439 allows.
- `OsRng` nonce generation is not modelled. The nonce is an argument.
- JSON text is not modelled. Objects are key-to-value maps, so the order of keys and whitespace are not modelled, and neither is the handling of duplicate keys.
  - Numbers are integers; a floating-point `age` is not modelled.
- UserJson.DecodeState: the array form `[tag, details]` that serde's derived adjacently tagged visitor also accepts is not modelled. An array state is rejected as the wrong type.
- UserJson.Deserialize: the array form of the whole record is not modelled. serde's derived visitor also accepts a JSON array of the field values in declaration order, which a key-to-value map cannot express.
- UserJson.Deserialize: it reports the first error in field-declaration order. serde reports the first error it meets in input order, so when an input has several errors the two can name different ones.
- `serialize_encrypt` and `deserialize_decrypt` in `examples/serde1.rs` are not modelled, because nothing uses them. The code is marked dead and its attributes are commented out.
- In `main` of `examples/serde1.rs`, the printing and the JSON text are not modelled. Its serialise-then-deserialise of a sample user (lines 131-134) is what `UserJson.RoundTrip` states for every user.
- In `main` of `examples/axum_serde.rs`, installing the subscriber, binding the listener and serving are not modelled. Its initial record behind the shared lock (lines 34-39) is `SharedUser`'s constructor.
- `examples/minginx.rs`, `examples/tokio1.rs`, `examples/tokio2.rs`, `examples/bytes.rs`, `examples/enum.rs`, `examples/more.rs`, `examples/builder.rs`, `examples/err.rs`, `examples/serde.rs` and `src/` are not part of this model.
