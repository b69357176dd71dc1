# SketchwareAPI client: a verified model

This project models the core of the Kotlin client for the Sketchware sharing
service. That core is four pieces:

- **The two wire codecs for single values.**
  - `StringLongSerializer` carries a `Long` as a decimal string: `toString()` out, `toLong()` in.
  - `SnsSerializer` carries a `Boolean` as `"Y"`/`"N"`, and any other string decodes, leniently, as false.
- **The result wrapper and its choke point.**
  - `Response<T>` has a nullable body, a nullable error, and the chainable `success`/`error` inspectors.
  - `postRequest`/`getRequest` send one request and catch any exception into a `Response`.
- **The `@Serializable` model classes**, each a declarative table of properties:
  - its wire name
  - Int, Long or String
  - required, or nullable with a `null` default
  - an optional codec

  One generic routine encodes and decodes every such table. Encoding writes the properties in declaration order and leaves out a `null` default. Decoding follows the streaming decoder behind the client's `KotlinxSerializer()`, whose JSON configuration neither ignores unknown keys nor is lenient:
  - the members are read in the object's own order
  - a member named after no property is an `UnknownKey` exception at once
  - each member's value is decoded as its property's type when it is read, so the first member of the wrong kind or range is the exception reported
  - an Int or Long property takes a JSON number or a string holding a numeral
  - of two members with the same name, the later one wins
  - once the whole object is read, the first required property (in declaration order) that never appeared is a `MissingField` exception
- **The endpoint descriptors** of the `SharedCollectionsAPI`, `UserAPI` and `ProjectsAPI` façades and of the older `SketchwareAPIClient`. For each public method, the descriptor is:
  - the HTTP method
  - the URL built from the base URL and the kind and sort tokens
  - the flat JSON body
  - the type the reply is decoded into
  - whether the call goes through `postRequest` (a `Response` comes back) or straight to the HTTP client (an exception escapes)

The source's quirks are modelled as the code has them and proved as they stand:
- `getMostLikedSharedBlocks(requestBody)` asks for the MoreBlocks listing, while the Int overload asks for Blocks.
- `ExportedApk`'s file name lives under the wire key `"file_na,e"`, so an object keyed `file_name` does not decode.
- `UserAPI.getUserExportedProjects` decodes a list of `ExportedApk`.
- `SketchwareAPIClient` differs from the façades in four places:
  - it sorts by `downCnt`
  - it logs in at a fixed `https://sketchware.io` URL
  - its file download and version check are unwrapped
  - its comments and tags decode a single record rather than a list, so a JSON array reply is an error.

The network is a parameter of the model: a total function from a request to `Ok(payload)` or `Exn(cause)`. `Invoke` runs a descriptor against it. Each wrapped call sends exactly one request, and it is proved never to let a failure escape and to preserve the cause verbatim.

Module layout, one module per file:
- `Wrappers`, `Ints` and `Json`: the basic types
- `StringLongSerializer` and `SnsSerializer`: the scalar codecs
- `Schema`: the generic table routine
- one `…Schema` module per model class
- `Responses` and `KtorUtils`: the wrapper and its choke point
- `Endpoints`: URL pieces, result shapes and invocation
- one module per façade, plus `SketchwareAPIClient`

## Model

| member | source | states |
|---|---|---|
| StringLongSerializer.Serialize | src/commonMain/kotlin/io/sketchware/api/serializers/StringLongSerializer.kt:17-19 | `Long.toString()` is never empty and starts with a minus sign exactly when the number is negative; SerializeCanonical and RoundTrip give its full form and its inverse |
| StringLongSerializer.Deserialize | src/commonMain/kotlin/io/sketchware/api/serializers/StringLongSerializer.kt:13-15 | `String.toLong()` fails only with a number-format error carrying the input itself, and a negative result needs a leading minus; RoundTrip, ReencodeIff, EmptyFails, NonNumericFails and OutOfRangeFails say what it accepts |
| StringLongSerializer.Digits | src/commonMain/kotlin/io/sketchware/api/serializers/StringLongSerializer.kt:18 | the decimal digits of a number are a non-empty string of digits; DigitsShape adds that they have no leading zero and denote the number |
| StringLongSerializer.RoundTrip | src/commonMain/kotlin/io/sketchware/api/serializers/StringLongSerializer.kt:13-19 | for every 64-bit integer n, decoding its `toString()` form gives `Ok(n)` |
| StringLongSerializer.SerializeCanonical | src/commonMain/kotlin/io/sketchware/api/serializers/StringLongSerializer.kt:17-19 | `serialize` always yields the canonical decimal form: "0", or an optional '-' followed by digits with no leading zero |
| StringLongSerializer.DigitsShape | src/commonMain/kotlin/io/sketchware/api/serializers/StringLongSerializer.kt:18 | the decimal digits of n are non-empty, all digits, have no leading zero when n ≥ 1, and denote n |
| StringLongSerializer.CanonicalReencodes | src/commonMain/kotlin/io/sketchware/api/serializers/StringLongSerializer.kt:14-18 | a canonical string that decodes is exactly the `toString()` of its value |
| StringLongSerializer.ReencodeIff | src/commonMain/kotlin/io/sketchware/api/serializers/StringLongSerializer.kt:14-18 | for a string that decodes, re-encoding its value gives it back if and only if it is canonical |
| StringLongSerializer.LenientForms | src/commonMain/kotlin/io/sketchware/api/serializers/StringLongSerializer.kt:14 | "+5", "007" and "-0" decode to 5, 7 and 0, though none of them is canonical |
| StringLongSerializer.EmptyFails | src/commonMain/kotlin/io/sketchware/api/serializers/StringLongSerializer.kt:13-15 | the empty string and a lone sign fail with a number-format error |
| StringLongSerializer.NonNumericFails | src/commonMain/kotlin/io/sketchware/api/serializers/StringLongSerializer.kt:13-15 | any character that is neither a digit nor a leading sign makes decoding fail with a number-format error |
| StringLongSerializer.OutOfRangeFails | src/commonMain/kotlin/io/sketchware/api/serializers/StringLongSerializer.kt:14 | a numeral above 2^63-1, or a negative one below -2^63, fails; a negative numeral within range decodes to its value |
| SnsSerializer.Serialize | src/commonMain/kotlin/io/sketchware/api/serializers/SnsSerializer.kt:17-22 | a flag is written as "Y" or "N", and that string decodes back to the same flag |
| SnsSerializer.Deserialize | src/commonMain/kotlin/io/sketchware/api/serializers/SnsSerializer.kt:13-15 | `decodeString() == "Y"`: DeserializeTrueIff states that only the exact string "Y" reads as true, Leniency that no string fails, ReencodeIff which strings survive a re-encoding |
| SnsSerializer.RoundTrip | src/commonMain/kotlin/io/sketchware/api/serializers/SnsSerializer.kt:13-22 | decode(encode(b)) == b for both booleans |
| SnsSerializer.SerializeImage | src/commonMain/kotlin/io/sketchware/api/serializers/SnsSerializer.kt:17-22 | the encoding is always "Y" or "N", and it is "Y" exactly for true |
| SnsSerializer.DeserializeTrueIff | src/commonMain/kotlin/io/sketchware/api/serializers/SnsSerializer.kt:14 | a string decodes to true if and only if it is exactly "Y" |
| SnsSerializer.Leniency | src/commonMain/kotlin/io/sketchware/api/serializers/SnsSerializer.kt:14 | "y", "", "N" and "YES" all decode, to false |
| SnsSerializer.ReencodeIff | src/commonMain/kotlin/io/sketchware/api/serializers/SnsSerializer.kt:14-21 | re-encoding a decoded flag gives back the string if and only if it is "Y" or "N" |
| Responses.Success | src/commonMain/kotlin/io/sketchware/api/models/Response.kt:7-9 | `success` returns the response unchanged; the listener fires once, on the body, exactly when there is a body, and earlier invocations are kept |
| Responses.Error | src/commonMain/kotlin/io/sketchware/api/models/Response.kt:11-13 | `error` returns the response unchanged; the listener fires once, on the error, exactly when there is an error |
| Responses.DefaultFiresNothing | src/commonMain/kotlin/io/sketchware/api/models/Response.kt:3-6 | a default `Response()` fires no listener in either chaining order |
| Responses.ChainInCallOrder | src/commonMain/kotlin/io/sketchware/api/models/Response.kt:7-13 | chaining never changes the response and fires the listeners in call order |
| Responses.BothSidesFireBoth | src/commonMain/kotlin/io/sketchware/api/models/Response.kt:3-13 | a response with both sides set fires both listeners, in the chain's order |
| Responses.OneSidedFiresOne | src/commonMain/kotlin/io/sketchware/api/models/Response.kt:7-13 | on a one-sided response a chain fires exactly the listener of its outcome, with its value |
| KtorUtils.Capture | src/commonMain/kotlin/io/sketchware/api/utils/KtorUtils.kt:10-14 | the try/catch yields a response with exactly one side set, and that side is the outcome |
| KtorUtils.PostRequest | src/commonMain/kotlin/io/sketchware/api/utils/KtorUtils.kt:7-14 | exactly one POST is sent, to the given URL with the given body; the response is one-sided and stands for the transport's outcome |
| KtorUtils.GetRequest | src/commonMain/kotlin/io/sketchware/api/utils/KtorUtils.kt:16-23 | the same as PostRequest, with one GET |
| KtorUtils.CaptureBijective | src/commonMain/kotlin/io/sketchware/api/utils/KtorUtils.kt:10-14 | one-sided responses and outcomes correspond one to one, so capturing loses nothing |
| KtorUtils.PostRequestSides | src/commonMain/kotlin/io/sketchware/api/utils/KtorUtils.kt:10-13 | a value v comes back as `Response(v, null)`; an exception e comes back as `Response(null, e)`, verbatim |
| KtorUtils.GetMirrorsPost | src/commonMain/kotlin/io/sketchware/api/utils/KtorUtils.kt:16-23 | `getRequest` gives the response `postRequest` would give with the request's method changed to GET |
| Json.Lookup | src/commonMain/kotlin/io/sketchware/api/SketchwareAPIClient.kt:31-33 | a name is found exactly when some member has it, and what is found is the value of a member of that name |
| Json.LookupAt | src/commonMain/kotlin/io/sketchware/api/SketchwareAPIClient.kt:31-33 | the member at a position is what its name leads to when no later member has that name |
| Json.LookupAppend | src/commonMain/kotlin/io/sketchware/api/SketchwareAPIClient.kt:31-33 | a member appended to an object is what its name leads to from then on; every other name leads where it did |
| Schema.NumberIn | src/commonMain/kotlin/io/sketchware/api/SketchwareAPIClient.kt:31-33 | an Int or Long property reads a JSON number as itself, and a JSON string only as a numeral in the signed 64-bit range; no other value reads as a number |
| Schema.EncodeValue | src/commonMain/kotlin/io/sketchware/api/models/BaseShared.kt:6-37 | a property is left out of the encoding exactly when it is nullable and at its `null` default |
| Schema.EncodeRowFull | src/commonMain/kotlin/io/sketchware/api/models/BaseShared.kt:6-37 | when every property is required, the encoding has one member per property, in declaration order, each the property's name with its encoded value |
| Schema.IndexOf | src/commonMain/kotlin/io/sketchware/api/SketchwareAPIClient.kt:31-33 | a name leads to a property exactly when some property has that wire name, and then to a property of that name |
| Schema.IndexOfWire | src/commonMain/kotlin/io/sketchware/api/models/BaseShared.kt:6-37 | in a table with distinct names, a property's own name leads back to it |
| Schema.DecodeMember | src/commonMain/kotlin/io/sketchware/api/models/AuthorizedModel.kt:9-34 | a member's value decoded as a property has the property's declared type |
| Schema.AcceptsIff | src/commonMain/kotlin/io/sketchware/api/models/AuthorizedModel.kt:9-34 | a value decodes as a property exactly when it is of an accepted kind: a number or a quoted numeral in range for Int and Long, a string for String, a string or null for a nullable String, a string `toLong()` reads for the date codec, any string for the Y/N codec |
| Schema.DecodeValue | src/commonMain/kotlin/io/sketchware/api/models/BaseShared.kt:6-37 | a decoded property has its declared type; an absent member decodes exactly when the property is nullable with a default |
| Schema.ReadMember | src/commonMain/kotlin/io/sketchware/api/SketchwareAPIClient.kt:31-33 | a member that is read names a property of the table, and its value decodes as that property |
| Schema.ReadMemberIff | src/commonMain/kotlin/io/sketchware/api/SketchwareAPIClient.kt:31-33 | a member is read without exception exactly when it names a property and holds a value that property accepts |
| Schema.OnlyPropertiesIff | src/commonMain/kotlin/io/sketchware/api/SketchwareAPIClient.kt:31-33 | an object has only readable members exactly when each of its members names a property and holds a value that property accepts |
| Schema.ReadMembers | src/commonMain/kotlin/io/sketchware/api/SketchwareAPIClient.kt:31-33 | reading the members yields one slot per property |
| Schema.ReadMembersSlots | src/commonMain/kotlin/io/sketchware/api/SketchwareAPIClient.kt:31-33 | reading succeeds exactly when every member is readable, and each slot then holds the last member under its property's name, or what it held before |
| Schema.Finish | src/commonMain/kotlin/io/sketchware/api/SketchwareAPIClient.kt:31-33 | settling the slots yields a row that is well typed for the table |
| Schema.FinishIff | src/commonMain/kotlin/io/sketchware/api/SketchwareAPIClient.kt:31-33 | settling gives a row exactly when each property settles to its entry from its own slot |
| Schema.DecodeObject | src/commonMain/kotlin/io/sketchware/api/SketchwareAPIClient.kt:31-33 | only a JSON object can decode, and a successful decode is well typed |
| Schema.DecodeObjectIff | src/commonMain/kotlin/io/sketchware/api/SketchwareAPIClient.kt:31-33 | an object decodes to a row exactly when every member names a property and holds a value it accepts, and each property decodes to its entry from the last member under its name, or from its absence |
| Schema.DecodeEncodedValue | src/commonMain/kotlin/io/sketchware/api/models/AuthorizedModel.kt:9-34 | every property value, codec-carried ones included, decodes back from the JSON it encodes to |
| Schema.LookupAbsent | src/commonMain/kotlin/io/sketchware/api/models/BaseShared.kt:6-37 | an encoding has no member whose name is not in the table |
| Schema.LookupEncoded | src/commonMain/kotlin/io/sketchware/api/models/BaseShared.kt:6-37 | in an encoding, each property's name leads to exactly what that property encodes to; a `null` default leads to nothing |
| Schema.EncodedMember | src/commonMain/kotlin/io/sketchware/api/models/BaseShared.kt:6-37 | each member of an encoding is some property's name with what that property encodes to |
| Schema.EncodedOnlyProperties | src/commonMain/kotlin/io/sketchware/api/models/BaseShared.kt:6-37 | every member of an encoding names a property and holds a value that property accepts |
| Schema.RoundTrip | src/commonMain/kotlin/io/sketchware/api/models/BaseShared.kt:6-37 | for a table with distinct names, every well-typed row decodes back from its encoding |
| Schema.MissingRequiredFails | src/commonMain/kotlin/io/sketchware/api/models/BaseShared.kt:6-37 | an absent required property makes the decode fail |
| Schema.DecodedAt | src/commonMain/kotlin/io/sketchware/api/models/BaseShared.kt:6-37 | each entry of a successful decode is what the last member under its name decodes to |
| Schema.LaterDuplicateWins | src/commonMain/kotlin/io/sketchware/api/SketchwareAPIClient.kt:31-33 | a member appended under a property's name decides that property's entry, whatever earlier members of that name held |
| Schema.FirstFailure | src/commonMain/kotlin/io/sketchware/api/SketchwareAPIClient.kt:31-33 | the first member, in the object's own order, that cannot be read is the exception reported, whatever follows it and before any missing property |
| Schema.StopsAt | src/commonMain/kotlin/io/sketchware/api/SketchwareAPIClient.kt:31-33 | once the members before position k are read without exception, the member at k that cannot be read ends the reading with its own exception |
| Schema.UnknownKeyFails | src/commonMain/kotlin/io/sketchware/api/SketchwareAPIClient.kt:31-33 | a member named after no property, after members that can be read, is an `UnknownKey` exception for that name |
| Schema.UnknownKeyRefused | src/commonMain/kotlin/io/sketchware/api/SketchwareAPIClient.kt:31-33 | an object with a member named after no property never decodes, wherever that member stands |
| Schema.ReadMembersRefuse | src/commonMain/kotlin/io/sketchware/api/SketchwareAPIClient.kt:31-33 | reading the members ends in an exception whenever one of them is named after no property, from whatever slots it starts |
| Schema.FirstMissing | src/commonMain/kotlin/io/sketchware/api/SketchwareAPIClient.kt:31-33 | when every member can be read, the exception is `MissingField` for the first required property, in declaration order, that never appeared |
| Schema.FinishStops | src/commonMain/kotlin/io/sketchware/api/SketchwareAPIClient.kt:31-33 | settling the slots ends with the exception of the first property, in declaration order, whose slot does not settle |
| Schema.FieldIff | src/commonMain/kotlin/io/sketchware/api/models/AuthorizedModel.kt:9-34 | a property decodes to a value exactly when the last member under its name holds that value's wire form, codecs included |
| Schema.DecodeObjectHolds | src/commonMain/kotlin/io/sketchware/api/models/AuthorizedModel.kt:9-34 | an object decodes to a row exactly when every member is readable and the members under each property's name hold its entry's wire form |
| AuthorizedModelSchema.Decode | src/commonMain/kotlin/io/sketchware/api/models/AuthorizedModel.kt:9-34 | anything but a JSON object is refused as an unexpected body; DecodeIff states which objects decode, and to which record |
| AuthorizedModelSchema.Encode | src/commonMain/kotlin/io/sketchware/api/models/AuthorizedModel.kt:9-34 | the object the serializer writes; RoundTrip states that it decodes back to the same record |
| AuthorizedModelSchema.DecodeIff | src/commonMain/kotlin/io/sketchware/api/models/AuthorizedModel.kt:9-34 | an object decodes to a record exactly when it has no member outside the class, each member holds a value its property accepts, and the last member under each name gives the entry, for every property under its wire name: `level` and `alias` as named, the rest under their snake_case names, `user_reg_dt` as a decimal string, `is_sns_user` as a Y/N string, and the Ints in 32-bit range, bare or quoted |
| AuthorizedModelSchema.HoldsDescribes | src/commonMain/kotlin/io/sketchware/api/models/AuthorizedModel.kt:9-34 | for an object with only readable members, property-by-property decoding implies the per-name description of the record |
| AuthorizedModelSchema.DescribesHolds | src/commonMain/kotlin/io/sketchware/api/models/AuthorizedModel.kt:9-34 | the per-name description implies property-by-property decoding |
| AuthorizedModelSchema.WiresDistinct | src/commonMain/kotlin/io/sketchware/api/models/AuthorizedModel.kt:9-34 | no two properties share a wire name |
| AuthorizedModelSchema.RoundTrip | src/commonMain/kotlin/io/sketchware/api/models/AuthorizedModel.kt:9-34 | decode(encode(r)) == r for every record |
| AuthorizedModelSchema.MissingKeyFails | src/commonMain/kotlin/io/sketchware/api/models/AuthorizedModel.kt:9-34 | every property is required: any missing key makes the decode fail |
| AuthorizedModelSchema.SnsFlagFromWire | src/commonMain/kotlin/io/sketchware/api/models/AuthorizedModel.kt:23-25 | a decoded `isSnsUser` is true if and only if `is_sns_user` is the string "Y" |
| AuthorizedModelSchema.RegisterDateFromWire | src/commonMain/kotlin/io/sketchware/api/models/AuthorizedModel.kt:20-22 | a decoded `userRegisterDate` is what `toLong()` makes of the `user_reg_dt` string |
| AuthorizedModelSchema.BadRegisterDateFails | src/commonMain/kotlin/io/sketchware/api/models/AuthorizedModel.kt:20-22 | a `user_reg_dt` that `toLong()` rejects makes the decode fail |
| AuthorizedModelSchema.EncodedForms | src/commonMain/kotlin/io/sketchware/api/models/AuthorizedModel.kt:20-25 | encoding writes the date as its decimal string and the flag as "Y"/"N" |
| SharedProjectSchema.Decode | src/commonMain/kotlin/io/sketchware/api/models/SharedProject.kt:8-24 | anything but a JSON object is refused as an unexpected body; DecodeIff states which objects decode, and to which record |
| SharedProjectSchema.Encode | src/commonMain/kotlin/io/sketchware/api/models/SharedProject.kt:8-24 | the object the serializer writes; RoundTrip states that it decodes back to the same record |
| SharedProjectSchema.DecodeIff | src/commonMain/kotlin/io/sketchware/api/models/SharedProject.kt:8-24 | an object decodes to a record exactly when it has no member outside the class, each member holds a value its property accepts, and the last member under each name gives the entry: `alias`, `pkg_name`, `url_id`, `user_id` and `app_name`, with 32-bit Int ids, bare or quoted, and `reg_dt` and `expire_dt` as decimal strings of the dates |
| SharedProjectSchema.HoldsDescribes | src/commonMain/kotlin/io/sketchware/api/models/SharedProject.kt:8-24 | for an object with only readable members, property-by-property decoding implies the per-name description |
| SharedProjectSchema.DescribesHolds | src/commonMain/kotlin/io/sketchware/api/models/SharedProject.kt:8-24 | the per-name description implies property-by-property decoding |
| SharedProjectSchema.WiresDistinct | src/commonMain/kotlin/io/sketchware/api/models/SharedProject.kt:8-24 | no two properties share a wire name |
| SharedProjectSchema.RoundTrip | src/commonMain/kotlin/io/sketchware/api/models/SharedProject.kt:8-24 | decode(encode(p)) == p for every record |
| SharedProjectSchema.MissingKeyFails | src/commonMain/kotlin/io/sketchware/api/models/SharedProject.kt:8-24 | every property is required |
| SharedProjectSchema.BadDateFails | src/commonMain/kotlin/io/sketchware/api/models/SharedProject.kt:18-23 | a `reg_dt` or `expire_dt` string that `toLong()` rejects makes the decode fail |
| SharedProjectSchema.NumericDateFails | src/commonMain/kotlin/io/sketchware/api/models/SharedProject.kt:18-23 | a date sent as a bare JSON number, not a string, makes the decode fail |
| BaseSharedSchema.Decode | src/commonMain/kotlin/io/sketchware/api/models/BaseShared.kt:7-37 | anything but a JSON object is refused as an unexpected body; DecodeIff states which objects decode, and to which summary |
| BaseSharedSchema.Encode | src/commonMain/kotlin/io/sketchware/api/models/BaseShared.kt:7-37 | the object the serializer writes; RoundTrip states that it decodes back to the same summary |
| BaseSharedSchema.DecodeIff | src/commonMain/kotlin/io/sketchware/api/models/BaseShared.kt:7-37 | an object decodes to a summary exactly when it has no member outside the class, each member holds a value its property accepts, and the last member under each name gives the entry: every property under its wire name, the counters and ids as 32-bit Ints, bare or quoted, the dates as raw strings, and `view_name`/`block_name` as a string, or as absent or null for `null` |
| BaseSharedSchema.HoldsDescribes | src/commonMain/kotlin/io/sketchware/api/models/BaseShared.kt:7-37 | for an object with only readable members, property-by-property decoding implies the per-name description |
| BaseSharedSchema.DescribesHolds | src/commonMain/kotlin/io/sketchware/api/models/BaseShared.kt:7-37 | the per-name description implies property-by-property decoding |
| BaseSharedSchema.WiresDistinct | src/commonMain/kotlin/io/sketchware/api/models/BaseShared.kt:7-37 | no two properties share a wire name |
| BaseSharedSchema.RoundTrip | src/commonMain/kotlin/io/sketchware/api/models/BaseShared.kt:7-37 | decode(encode(b)) == b for every summary |
| BaseSharedSchema.MissingKeyFails | src/commonMain/kotlin/io/sketchware/api/models/BaseShared.kt:7-37 | every property other than `view_name` and `block_name` is required |
| BaseSharedSchema.AbsentNames | src/commonMain/kotlin/io/sketchware/api/models/BaseShared.kt:21-36 | an absent `view_name` or `block_name` decodes to `null` |
| BaseSharedSchema.ViewSummary | src/commonMain/kotlin/io/sketchware/api/models/BaseShared.kt:12-36 | `shared_id` 42, `view_name` "Foo" and no `block_name` decode to id 42, view name "Foo" and block name `null` |
| BaseSharedSchema.WideCountFails | src/commonMain/kotlin/io/sketchware/api/models/BaseShared.kt:23-24 | a `down_cnt` beyond the 32-bit range makes the decode fail |
| SharedDetailsSchema.Decode | src/commonMain/kotlin/io/sketchware/api/models/SharedDetails.kt:7-48 | anything but a JSON object is refused as an unexpected body; DecodeIff states which objects decode, and to which record |
| SharedDetailsSchema.Encode | src/commonMain/kotlin/io/sketchware/api/models/SharedDetails.kt:7-48 | the object the serializer writes; RoundTrip states that it decodes back to the same record |
| SharedDetailsSchema.DecodeIff | src/commonMain/kotlin/io/sketchware/api/models/SharedDetails.kt:7-48 | an object decodes to a detail record exactly when it has no member outside the class, each member holds a value its property accepts, and the last member under each name gives the entry: every property, the id and counters as 64-bit Longs, bare or quoted, the dates as raw strings, and `block_name` as optional |
| SharedDetailsSchema.HoldsDescribes | src/commonMain/kotlin/io/sketchware/api/models/SharedDetails.kt:7-48 | for an object with only readable members, property-by-property decoding implies the per-name description |
| SharedDetailsSchema.DescribesHolds | src/commonMain/kotlin/io/sketchware/api/models/SharedDetails.kt:7-48 | the per-name description implies property-by-property decoding |
| SharedDetailsSchema.WiresDistinct | src/commonMain/kotlin/io/sketchware/api/models/SharedDetails.kt:7-48 | no two properties share a wire name |
| SharedDetailsSchema.RoundTrip | src/commonMain/kotlin/io/sketchware/api/models/SharedDetails.kt:7-48 | decode(encode(d)) == d for every record |
| SharedDetailsSchema.MissingKeyFails | src/commonMain/kotlin/io/sketchware/api/models/SharedDetails.kt:7-48 | every property other than `block_name` is required |
| SharedDetailsSchema.AbsentBlockName | src/commonMain/kotlin/io/sketchware/api/models/SharedDetails.kt:46-47 | an absent `block_name` decodes to `null` |
| SharedDetailsSchema.ViewNameRefused | src/commonMain/kotlin/io/sketchware/api/models/SharedDetails.kt:7-48 | the class has no `view_name`: adding one to any object makes the decode fail, with `UnknownKey("view_name")` when every earlier member can be read |
| SharedDetailsSchema.WideCounter | src/commonMain/kotlin/io/sketchware/api/models/SharedDetails.kt:28-29 | a download count beyond the 32-bit range still decodes, because the counters are Longs |
| ExportedApkSchema.Decode | src/commonMain/kotlin/io/sketchware/api/models/ExportedApk.kt:7-21 | anything but a JSON object is refused as an unexpected body; DecodeIff states which objects decode, and to which record |
| ExportedApkSchema.Encode | src/commonMain/kotlin/io/sketchware/api/models/ExportedApk.kt:7-21 | the object the serializer writes; RoundTrip states that it decodes back to the same record |
| ExportedApkSchema.DecodeIff | src/commonMain/kotlin/io/sketchware/api/models/ExportedApk.kt:7-21 | an object decodes to a record exactly when it has no member outside the class, each member holds a value its property accepts, and the last member under each name gives the entry: `alias`, `pkg_name`, `url_id`, `user_id`, `"file_na,e"`, `reg_dt` and `expire_dt`, with the dates as raw strings |
| ExportedApkSchema.HoldsDescribes | src/commonMain/kotlin/io/sketchware/api/models/ExportedApk.kt:7-21 | for an object with only readable members, property-by-property decoding implies the per-name description |
| ExportedApkSchema.DescribesHolds | src/commonMain/kotlin/io/sketchware/api/models/ExportedApk.kt:7-21 | the per-name description implies property-by-property decoding |
| ExportedApkSchema.WiresDistinct | src/commonMain/kotlin/io/sketchware/api/models/ExportedApk.kt:7-21 | no two properties share a wire name |
| ExportedApkSchema.RoundTrip | src/commonMain/kotlin/io/sketchware/api/models/ExportedApk.kt:7-21 | decode(encode(e)) == e for every record |
| ExportedApkSchema.MissingKeyFails | src/commonMain/kotlin/io/sketchware/api/models/ExportedApk.kt:7-21 | every property is required |
| ExportedApkSchema.FileNameKeyFails | src/commonMain/kotlin/io/sketchware/api/models/ExportedApk.kt:15-16 | a `file_name` member after members that can be read is refused as an unknown key, `UnknownKey("file_name")` |
| ExportedApkSchema.FileNameKeyRefused | src/commonMain/kotlin/io/sketchware/api/models/ExportedApk.kt:15-16 | an object with a `file_name` member anywhere never decodes |
| ExportedApkSchema.ServiceObjectFails | src/commonMain/kotlin/io/sketchware/api/models/ExportedApk.kt:7-21 | a record's members in declaration order, with the file name keyed `file_name`, fail with `UnknownKey("file_name")` |
| ExportedApkSchema.EncodedFileName | src/commonMain/kotlin/io/sketchware/api/models/ExportedApk.kt:15-16 | the encoding carries the file name under `"file_na,e"` and has no `file_name` member |
| ExportedApkSchema.EncodedLayout | src/commonMain/kotlin/io/sketchware/api/models/ExportedApk.kt:7-21 | the encoding is exactly that `file_name`-keyed object with its fifth key spelled `"file_na,e"` |
| SharedCommentSchema.Decode | src/commonMain/kotlin/io/sketchware/api/models/SharedComment.kt:7-20 | anything but a JSON object is refused as an unexpected body; DecodeIff states which objects decode, and to which comment |
| SharedCommentSchema.Encode | src/commonMain/kotlin/io/sketchware/api/models/SharedComment.kt:7-20 | the object the serializer writes; RoundTrip states that it decodes back to the same comment |
| SharedCommentSchema.DecodeIff | src/commonMain/kotlin/io/sketchware/api/models/SharedComment.kt:7-20 | an object decodes to a comment exactly when it has no member outside the class, each member holds a value its property accepts, and the last member under each name gives the entry: `comment_id`, `level`, `user_alias`, `shared_id`, `user_id`, `comment` and the raw `reg_dt` |
| SharedCommentSchema.HoldsDescribes | src/commonMain/kotlin/io/sketchware/api/models/SharedComment.kt:7-20 | for an object with only readable members, property-by-property decoding implies the per-name description |
| SharedCommentSchema.DescribesHolds | src/commonMain/kotlin/io/sketchware/api/models/SharedComment.kt:7-20 | the per-name description implies property-by-property decoding |
| SharedCommentSchema.WiresDistinct | src/commonMain/kotlin/io/sketchware/api/models/SharedComment.kt:7-20 | no two properties share a wire name |
| SharedCommentSchema.RoundTrip | src/commonMain/kotlin/io/sketchware/api/models/SharedComment.kt:7-20 | decode(encode(c)) == c for every comment |
| SharedCommentSchema.MissingKeyFails | src/commonMain/kotlin/io/sketchware/api/models/SharedComment.kt:7-20 | every property is required |
| SharedTagSchema.Decode | src/commonMain/kotlin/io/sketchware/api/models/SharedTag.kt:7-12 | anything but a JSON object is refused as an unexpected body; DecodeIff states which objects decode, and to which tag |
| SharedTagSchema.Encode | src/commonMain/kotlin/io/sketchware/api/models/SharedTag.kt:7-12 | the object the serializer writes; RoundTrip states that it decodes back to the same tag |
| SharedTagSchema.DecodeIff | src/commonMain/kotlin/io/sketchware/api/models/SharedTag.kt:7-12 | an object decodes to a tag exactly when it has no member outside the class, each member holds a value its property accepts, and the last member under each name gives the entry: `tag_text` as a string and `tag_id` as a 32-bit Int, bare or quoted |
| SharedTagSchema.RoundTrip | src/commonMain/kotlin/io/sketchware/api/models/SharedTag.kt:7-12 | decode(encode(t)) == t for every tag |
| SharedTagSchema.MissingKeyFails | src/commonMain/kotlin/io/sketchware/api/models/SharedTag.kt:7-12 | both properties are required |
| SharedTagSchema.ExtraMemberFails | src/commonMain/kotlin/io/sketchware/api/models/SharedTag.kt:7-12 | `{"tag_text":"a","tag_id":1,"extra":0}` fails with `UnknownKey("extra")` |
| SharedTagSchema.WrongKindFirst | src/commonMain/kotlin/io/sketchware/api/models/SharedTag.kt:7-12 | `{"tag_id":true}` fails at `tag_id`, with `UnexpectedValue("tag_id")`, not with the missing `tag_text` |
| SharedTagSchema.LaterTagIdWins | src/commonMain/kotlin/io/sketchware/api/models/SharedTag.kt:7-12 | `{"tag_id":1,"tag_text":"a","tag_id":2}` decodes to the tag `("a", 2)` |
| SharedTagSchema.QuotedTagId | src/commonMain/kotlin/io/sketchware/api/models/SharedTag.kt:7-12 | `{"tag_text":"a","tag_id":"5"}` decodes to the tag `("a", 5)` |
| GetSharedRequestBodySchema.Decode | src/commonMain/kotlin/io/sketchware/api/models/GetSharedRequestBody.kt:7-14 | anything but a JSON object is refused as an unexpected body; DecodeIff states which objects decode, and to which request body |
| GetSharedRequestBodySchema.Encode | src/commonMain/kotlin/io/sketchware/api/models/GetSharedRequestBody.kt:7-14 | the object the serializer writes; RoundTrip states that it decodes back to the same request body |
| GetSharedRequestBodySchema.DecodeIff | src/commonMain/kotlin/io/sketchware/api/models/GetSharedRequestBody.kt:7-14 | an object decodes to a request body exactly when it has no member outside the class, each member holds a value its property accepts, and the last member under each name gives the entry: `row_unit` and `row_start` as Ints, bare or quoted, and `tag_text` as an optional string |
| GetSharedRequestBodySchema.HoldsDescribes | src/commonMain/kotlin/io/sketchware/api/models/GetSharedRequestBody.kt:7-14 | for an object with only readable members, property-by-property decoding implies the per-name description |
| GetSharedRequestBodySchema.DescribesHolds | src/commonMain/kotlin/io/sketchware/api/models/GetSharedRequestBody.kt:7-14 | the per-name description implies property-by-property decoding |
| GetSharedRequestBodySchema.WiresDistinct | src/commonMain/kotlin/io/sketchware/api/models/GetSharedRequestBody.kt:7-14 | no two properties share a wire name |
| GetSharedRequestBodySchema.RoundTrip | src/commonMain/kotlin/io/sketchware/api/models/GetSharedRequestBody.kt:7-14 | decode(encode(x)) == x for every request body |
| GetSharedRequestBodySchema.MissingKeyFails | src/commonMain/kotlin/io/sketchware/api/models/GetSharedRequestBody.kt:8-11 | `row_unit` and `row_start` are required |
| GetSharedRequestBodySchema.Paging | src/commonMain/kotlin/io/sketchware/api/models/GetSharedRequestBody.kt:13 | the two-argument constructor the listings use leaves the tag `null` |
| GetSharedRequestBodySchema.EncodeLayout | src/commonMain/kotlin/io/sketchware/api/models/GetSharedRequestBody.kt:8-13 | the encoding is `{row_unit, row_start}`, with `tag_text` appended only when a tag is given |
| GetSharedRequestBodySchema.AbsentTag | src/commonMain/kotlin/io/sketchware/api/models/GetSharedRequestBody.kt:12-13 | an absent `tag_text` decodes to a `null` tag |
| GetSharedFileRequestBodySchema.Decode | src/commonMain/kotlin/io/sketchware/api/models/GetSharedFileRequestBody.kt:7-12 | anything but a JSON object is refused as an unexpected body; DecodeIff states which objects decode, and to which file request |
| GetSharedFileRequestBodySchema.Encode | src/commonMain/kotlin/io/sketchware/api/models/GetSharedFileRequestBody.kt:7-12 | the object the serializer writes; RoundTrip states that it decodes back to the same file request |
| GetSharedFileRequestBodySchema.DecodeIff | src/commonMain/kotlin/io/sketchware/api/models/GetSharedFileRequestBody.kt:7-12 | an object decodes to a file request exactly when it has no member outside the class, each member holds a value its property accepts, and the last member under each name gives the entry: `shared_id` as an Int, bare or quoted, and `file_name` as a string |
| GetSharedFileRequestBodySchema.HoldsDescribes | src/commonMain/kotlin/io/sketchware/api/models/GetSharedFileRequestBody.kt:7-12 | for an object with only readable members, property-by-property decoding implies the per-name description |
| GetSharedFileRequestBodySchema.DescribesHolds | src/commonMain/kotlin/io/sketchware/api/models/GetSharedFileRequestBody.kt:7-12 | the per-name description implies property-by-property decoding |
| GetSharedFileRequestBodySchema.WiresDistinct | src/commonMain/kotlin/io/sketchware/api/models/GetSharedFileRequestBody.kt:7-12 | no two properties share a wire name |
| GetSharedFileRequestBodySchema.RoundTrip | src/commonMain/kotlin/io/sketchware/api/models/GetSharedFileRequestBody.kt:7-12 | decode(encode(x)) == x for every file request |
| GetSharedFileRequestBodySchema.MissingKeyFails | src/commonMain/kotlin/io/sketchware/api/models/GetSharedFileRequestBody.kt:7-12 | both properties are required |
| GetSharedFileRequestBodySchema.EncodeLayout | src/commonMain/kotlin/io/sketchware/api/models/GetSharedFileRequestBody.kt:8-11 | the encoding is exactly `{shared_id, file_name}`, in that order |
| Endpoints.KindTokens | src/commonMain/kotlin/io/sketchware/api/api/SharedCollectionsAPI.kt:18-282 | each plural kind token is its singular plus "s", and distinct kinds have distinct tokens |
| Endpoints.Url | src/commonMain/kotlin/io/sketchware/api/api/SharedCollectionsAPI.kt:43 | a URL built from the template is under the base URL and ends in ".do" |
| Endpoints.UrlParts | src/commonMain/kotlin/io/sketchware/api/api/SharedCollectionsAPI.kt:43 | the base URL, the path and the ".do" suffix can be read back from a URL |
| Endpoints.UrlInjective | src/commonMain/kotlin/io/sketchware/api/api/SharedCollectionsAPI.kt:43 | under one base URL, two URLs are equal if and only if their paths are |
| Endpoints.ToRecord | src/commonMain/kotlin/io/sketchware/api/api/SharedCollectionsAPI.kt:206 | a well-typed row of a class's table stands for a record of that class |
| Endpoints.RowOf | src/commonMain/kotlin/io/sketchware/api/models/BaseShared.kt:6-37 | a record's row is well typed for its class's table and stands for the record again |
| Endpoints.FieldsDistinct | src/commonMain/kotlin/io/sketchware/api/models/BaseShared.kt:6-37 | no class's table has two properties of one wire name |
| Endpoints.DecodeEntity | src/commonMain/kotlin/io/sketchware/api/api/SharedCollectionsAPI.kt:206 | decoding a reply as a model class yields a record of that class |
| Endpoints.EntityRoundTrip | src/commonMain/kotlin/io/sketchware/api/models/BaseShared.kt:6-37 | every record of every model class decodes back from its encoding as its own class |
| Endpoints.DecodeAll | src/commonMain/kotlin/io/sketchware/api/api/SharedCollectionsAPI.kt:43 | a decoded list has one record per array element |
| Endpoints.DecodeAllIff | src/commonMain/kotlin/io/sketchware/api/api/SharedCollectionsAPI.kt:43 | an array decodes to a list if and only if each element decodes to the record at its position |
| Endpoints.CollectIff | src/commonMain/kotlin/io/sketchware/api/api/SharedCollectionsAPI.kt:43 | outcomes gathered in order succeed with a list if and only if each outcome is the success holding the entry at its position |
| Endpoints.ListRoundTrip | src/commonMain/kotlin/io/sketchware/api/api/SharedCollectionsAPI.kt:43 | a list of records of one class decodes back from the array of their encodings |
| Endpoints.Receive | src/commonMain/kotlin/io/sketchware/api/api/SharedCollectionsAPI.kt:43-206 | a decoded reply has the call's type argument: a list of that class, one record of it, the bytes or the text received |
| Endpoints.OneRefusesArray | src/commonMain/kotlin/io/sketchware/api/SketchwareAPIClient.kt:219-232 | a call typed with a single record refuses any JSON array |
| Endpoints.ReceiveList | src/commonMain/kotlin/io/sketchware/api/api/SharedCollectionsAPI.kt:43 | a list call decodes the array of any records' encodings back to those records |
| Endpoints.Invoke | src/commonMain/kotlin/io/sketchware/api/utils/KtorUtils.kt:7-23 | a call sends exactly one request; it returns a one-sided Response if and only if the endpoint is wrapped |
| Endpoints.Call | src/commonMain/kotlin/io/sketchware/api/utils/KtorUtils.kt:11 | the client call `post<T>`: the transport, then decoding into the declared type; InvokeOutcome states that a failure comes back verbatim and a reply is decoded |
| Endpoints.InvokeOutcome | src/commonMain/kotlin/io/sketchware/api/utils/KtorUtils.kt:10-14 | wrapped or not, a call stands for the transport's outcome followed by decoding; a failure comes back verbatim |
| Endpoints.WrappedCapturesFailure | src/commonMain/kotlin/io/sketchware/api/utils/KtorUtils.kt:10-14 | a wrapped call never lets a failure escape: it becomes the error of the Response |
| Endpoints.DirectPropagatesFailure | src/commonMain/kotlin/io/sketchware/api/SketchwareAPIClient.kt:199-202 | an unwrapped call hands a failure to its caller as the exception itself |
| SharedCollectionsAPI.SharedIdBody | src/commonMain/kotlin/io/sketchware/api/api/SharedCollectionsAPI.kt:207 | `mapOf("shared_id" to id)` is an object of one member, `shared_id` holding the id |
| SharedCollectionsAPI.GetShared | src/commonMain/kotlin/io/sketchware/api/api/SharedCollectionsAPI.kt:42-45 | a POST through `postRequest` to `$baseUrl/req${tag2}Shared${tag}.do`, sending the request body as its serializer writes it and decoding a list of BaseShared |
| SharedCollectionsAPI.GetMostDownloadedShared | src/commonMain/kotlin/io/sketchware/api/api/SharedCollectionsAPI.kt:142-143 | the listing with sort token `DownCnt`: `$baseUrl/reqDownCntShared${tag}.do`, sending the request body and decoding a list of BaseShared |
| SharedCollectionsAPI.GetSharedFileCommon | src/commonMain/kotlin/io/sketchware/api/api/SharedCollectionsAPI.kt:195-198 | a POST through `postRequest` to `$baseUrl/downloadShared${tag}File.do`, sending the file request body and taking the reply as bytes |
| SharedCollectionsAPI.GetSharedDetails | src/commonMain/kotlin/io/sketchware/api/api/SharedCollectionsAPI.kt:205-208 | a POST through `postRequest` to `$baseUrl/reqShared${tag}Detail.do` whose body holds only `shared_id`, decoding one SharedDetails |
| SharedCollectionsAPI.GetSharedComments | src/commonMain/kotlin/io/sketchware/api/api/SharedCollectionsAPI.kt:215-218 | a POST through `postRequest` to `$baseUrl/reqShared${tag}CommentsList.do` whose body holds only `shared_id`, decoding a list of SharedComment |
| SharedCollectionsAPI.GetSharedTags | src/commonMain/kotlin/io/sketchware/api/api/SharedCollectionsAPI.kt:225-228 | a POST through `postRequest` to `$baseUrl/reqShared${tag}Tags.do` whose body holds only `shared_id`, decoding a list of SharedTag |
| SharedCollectionsAPI.AddCommentToShared | src/commonMain/kotlin/io/sketchware/api/api/SharedCollectionsAPI.kt:292-301 | a POST through `postRequest` to `$baseUrl/reqInsertShared${tag}Comment.do` whose four members are `session_id`, `login_id` (the e-mail), `shared_id` and `comment`, the reply taken as text |
| SharedCollectionsAPI.SearchByTagShared | src/commonMain/kotlin/io/sketchware/api/api/SharedCollectionsAPI.kt:341-345 | a POST through `postRequest` to `$baseUrl/reqTagSearchShared${tag}.do`, sending the request body and decoding a list of BaseShared |
| SharedCollectionsAPI.RemoveSharedComment | src/commonMain/kotlin/io/sketchware/api/api/SharedCollectionsAPI.kt:389-398 | a POST through `postRequest` to `$baseUrl/reqDeleteShared${tag}Comment.do` whose four members are `session_id`, `login_id`, `shared_id` and `comment_id`, the reply taken as text |
| SharedCollectionsAPI.AddDownloadToShared | src/commonMain/kotlin/io/sketchware/api/api/SharedCollectionsAPI.kt:437-442 | a POST through `postRequest` to `$baseUrl/reqShared${tag}DownCntAdd.do` whose body holds only `shared_id`, the reply taken as text |
| SharedCollectionsAPI.LikeSharedCollection | src/commonMain/kotlin/io/sketchware/api/api/SharedCollectionsAPI.kt:469-477 | a POST through `postRequest` to `$baseUrl/reqInsertShared${tag}Like.do` whose three members are `session_id`, `login_id` and `shared_id`, the reply taken as text |
| SharedCollectionsAPI.RemoveCollection | src/commonMain/kotlin/io/sketchware/api/api/SharedCollectionsAPI.kt:520-527 | a POST through `postRequest` to `$baseUrl/reqDeleteShared${tag}.do` whose three members are `session_id`, `login_id` and `shared_id`, the reply taken as text |
| SharedCollectionsAPI.EndpointFor | src/commonMain/kotlin/io/sketchware/api/api/SharedCollectionsAPI.kt:18-554 | every method of the façade is a POST under the base URL through `postRequest` |
| SharedCollectionsAPI.RecentViewsPage | src/commonMain/kotlin/io/sketchware/api/api/SharedCollectionsAPI.kt:18-45 | recent views with (10, 0) is a POST to `…/reqRecentSharedViews.do` with body `{"row_unit":10,"row_start":0}`, decoded as a list of BaseShared |
| SharedCollectionsAPI.RecentViewsUrl | src/commonMain/kotlin/io/sketchware/api/api/SharedCollectionsAPI.kt:18-19 | the recent-views listing goes to `$baseUrl/reqRecentSharedViews.do` |
| SharedCollectionsAPI.Listings | src/commonMain/kotlin/io/sketchware/api/api/SharedCollectionsAPI.kt:18-143 | the listings are `req<Sort>Shared<Kinds>.do` with the sort tokens Recent, LikeCnt and DownCnt and the plural kind; their body has no tag and decodes back with a `null` tag |
| SharedCollectionsAPI.MostLikedOverloads | src/commonMain/kotlin/io/sketchware/api/api/SharedCollectionsAPI.kt:52-90 | `getMostLikedSharedBlocks(requestBody)` asks for MoreBlocks, the Int overload for Blocks, so the two differ; for views and moreblocks the overloads agree |
| SharedCollectionsAPI.MostDownloadedOverloads | src/commonMain/kotlin/io/sketchware/api/api/SharedCollectionsAPI.kt:97-143 | both overloads of each most-downloaded listing make the same request |
| SharedCollectionsAPI.PerItemReads | src/commonMain/kotlin/io/sketchware/api/api/SharedCollectionsAPI.kt:205-282 | details, comments and tags use the singular kind and exactly `{"shared_id": id}`, decoding one SharedDetails, a list of SharedComment and a list of SharedTag |
| SharedCollectionsAPI.FileDownload | src/commonMain/kotlin/io/sketchware/api/api/SharedCollectionsAPI.kt:150-198 | a file download is `downloadShared<Kind>File.do` with `{shared_id, file_name}`, the same for both overloads, and its reply is taken as bytes |
| SharedCollectionsAPI.CommentBodies | src/commonMain/kotlin/io/sketchware/api/api/SharedCollectionsAPI.kt:292-398 | adding a comment sends session_id, login_id (the e-mail), shared_id and comment; deleting one sends comment_id in place of comment |
| SharedCollectionsAPI.AddCommentSends | src/commonMain/kotlin/io/sketchware/api/api/SharedCollectionsAPI.kt:292-301 | every call adding a comment sends exactly `session_id`, `login_id`, `shared_id` and `comment`, in that order |
| SharedCollectionsAPI.RemoveCommentSends | src/commonMain/kotlin/io/sketchware/api/api/SharedCollectionsAPI.kt:389-398 | every call deleting a comment sends exactly `session_id`, `login_id`, `shared_id` and `comment_id`, in that order |
| SharedCollectionsAPI.TagSearch | src/commonMain/kotlin/io/sketchware/api/api/SharedCollectionsAPI.kt:341-372 | a tag search posts to `reqTagSearchShared<Kinds>.do` with the tag as `tag_text`, and the body decodes back with that tag |
| SharedCollectionsAPI.ItemActions | src/commonMain/kotlin/io/sketchware/api/api/SharedCollectionsAPI.kt:437-527 | counting a download sends only shared_id; liking and removing send session_id, login_id and shared_id, each to its own URL |
| SharedCollectionsAPI.UploadSendsNoBody | src/commonMain/kotlin/io/sketchware/api/api/SharedCollectionsAPI.kt:515-518 | the upload sends no body: the session id and file name play no part in the request |
| SharedCollectionsAPI.FailureIsCaptured | src/commonMain/kotlin/io/sketchware/api/api/SharedCollectionsAPI.kt:42-527 | Endpoints.WrappedCapturesFailure instantiated for this façade, whose every endpoint is wrapped: each call comes back as a Response, and a transport failure as its error |
| UserAPI.AuthorizeBody | src/commonMain/kotlin/io/sketchware/api/api/UserAPI.kt:83-90 | the login body has exactly six members: `is_sns_user` as SnsSerializer writes true, `login_id` the e-mail, `sns_kind` "google", and `device_id`, `access_token` and `gcm_id` as given |
| UserAPI.EndpointFor | src/commonMain/kotlin/io/sketchware/api/api/UserAPI.kt:19-91 | every method of the façade is a POST under the base URL through `postRequest` |
| UserAPI.Authorize | src/commonMain/kotlin/io/sketchware/api/api/UserAPI.kt:77-91 | the login posts to `baseUrl + "/registerSnsUser.do"` and decodes an AuthorizedModel |
| UserAPI.AuthorizeBodyFields | src/commonMain/kotlin/io/sketchware/api/api/UserAPI.kt:83-90 | the login body flags an SNS user as SnsSerializer writes true ("Y"), names google as the SNS kind and carries the e-mail as login_id |
| UserAPI.Listings | src/commonMain/kotlin/io/sketchware/api/api/UserAPI.kt:19-38 | both listings send `{session_id, login_id}`, to `reqListExportApk.do` and `reqListExportData.do`, and both decode a list of ExportedApk |
| UserAPI.Removals | src/commonMain/kotlin/io/sketchware/api/api/UserAPI.kt:46-68 | both removals send `{session_id, login_id, url_id}`, to `reqDeleteApkUrl.do` and `reqDeleteDataUrl.do` |
| UserAPI.FailureIsCaptured | src/commonMain/kotlin/io/sketchware/api/api/UserAPI.kt:19-91 | Endpoints.WrappedCapturesFailure instantiated for this façade, whose every endpoint is wrapped: each call comes back as a Response, and a transport failure as its error |
| ProjectsAPI.EndpointFor | src/commonMain/kotlin/io/sketchware/api/api/ProjectsAPI.kt:15-34 | both methods are POSTs under the base URL through `postRequest` |
| ProjectsAPI.GetExportedProject | src/commonMain/kotlin/io/sketchware/api/api/ProjectsAPI.kt:15-18 | the project is asked for with `{"url_id": id}` at `reqGetExportData.do` and decodes as a list of SharedProject |
| ProjectsAPI.GetProjectExportedFile | src/commonMain/kotlin/io/sketchware/api/api/ProjectsAPI.kt:27-34 | the file request posts `{file_name, user_id, url_id}`, in that order, to `getExportProjectFile.do`, and its reply is bytes |
| ProjectsAPI.FailureIsCaptured | src/commonMain/kotlin/io/sketchware/api/api/ProjectsAPI.kt:16-28 | Endpoints.WrappedCapturesFailure instantiated for this façade, whose two endpoints are wrapped: both calls come back as a Response, and a transport failure as its error |
| SketchwareAPIClient.GetShared | src/commonMain/kotlin/io/sketchware/api/SketchwareAPIClient.kt:76-79 | a POST through `postRequest` to `$baseUrl/req${tag2}Shared${tag}.do`, sending the request body and decoding a list of BaseShared |
| SketchwareAPIClient.GetMostDownloadedShared | src/commonMain/kotlin/io/sketchware/api/SketchwareAPIClient.kt:176-177 | the listing with the lower-case sort token `downCnt`: `$baseUrl/reqdownCntShared${tag}.do`, sending the request body and decoding a list of BaseShared |
| SketchwareAPIClient.GetSharedFileCommon | src/commonMain/kotlin/io/sketchware/api/SketchwareAPIClient.kt:199-202 | a direct `httpClient.post`, not wrapped, to `$baseUrl/downloadShared${tag}File.do`, sending the file request body and taking the reply as bytes |
| SketchwareAPIClient.GetSharedDetails | src/commonMain/kotlin/io/sketchware/api/SketchwareAPIClient.kt:209-212 | a POST through `postRequest` to `$baseUrl/reqShared${tag}Detail.do` whose body holds only `shared_id`, decoding one SharedDetails |
| SketchwareAPIClient.GetSharedComments | src/commonMain/kotlin/io/sketchware/api/SketchwareAPIClient.kt:219-222 | a POST through `postRequest` to `$baseUrl/reqShared${tag}CommentsList.do` whose body holds only `shared_id`, decoding one SharedComment, not a list |
| SketchwareAPIClient.GetSharedTags | src/commonMain/kotlin/io/sketchware/api/SketchwareAPIClient.kt:229-232 | a POST through `postRequest` to `$baseUrl/reqShared${tag}Tags.do` whose body holds only `shared_id`, decoding one SharedTag, not a list |
| SketchwareAPIClient.AddCommentToShared | src/commonMain/kotlin/io/sketchware/api/SketchwareAPIClient.kt:321-330 | a POST through `postRequest` to `$baseUrl/reqInsertShared${tag}Comment.do` whose four members are `session_id`, `login_id`, `shared_id` and `comment`, the reply taken as text |
| SketchwareAPIClient.SearchByTagShared | src/commonMain/kotlin/io/sketchware/api/SketchwareAPIClient.kt:370-374 | a POST through `postRequest` to `$baseUrl/reqTagSearchShared${tag}.do`, sending the request body and decoding a list of BaseShared |
| SketchwareAPIClient.RemoveSharedComment | src/commonMain/kotlin/io/sketchware/api/SketchwareAPIClient.kt:418-427 | a POST through `postRequest` to `$baseUrl/reqDeleteShared${tag}Comment.do` whose four members are `session_id`, `login_id`, `shared_id` and `comment_id`, the reply taken as text |
| SketchwareAPIClient.EndpointFor | src/commonMain/kotlin/io/sketchware/api/SketchwareAPIClient.kt:44-485 | only the version check is a GET; it and the view-file download are the only unwrapped calls; the login goes to the fixed URL; every other call is under the base URL |
| SketchwareAPIClient.AgreesWithCollections | src/commonMain/kotlin/io/sketchware/api/SketchwareAPIClient.kt:52-461 | apart from the quirks below, every shared-collection method makes exactly the request of its SharedCollectionsAPI counterpart, the Blocks overload quirk included |
| SketchwareAPIClient.LowercaseDownCnt | src/commonMain/kotlin/io/sketchware/api/SketchwareAPIClient.kt:176-177 | the most-downloaded listings use `downCnt`, so their URL differs from the façade's `DownCnt` URL while everything else agrees |
| SketchwareAPIClient.SingleCommentsAndTags | src/commonMain/kotlin/io/sketchware/api/SketchwareAPIClient.kt:219-232 | comments and tags make the façade's request but decode a single SharedComment or SharedTag |
| SketchwareAPIClient.ArrayReplyFails | src/commonMain/kotlin/io/sketchware/api/SketchwareAPIClient.kt:219-232 | a JSON-array reply to comments or tags always comes back as an error Response |
| SketchwareAPIClient.UnwrappedViewFile | src/commonMain/kotlin/io/sketchware/api/SketchwareAPIClient.kt:184-202 | the view-file download makes the façade's request, unwrapped, and both overloads agree |
| SketchwareAPIClient.UnwrappedFailureEscapes | src/commonMain/kotlin/io/sketchware/api/SketchwareAPIClient.kt:44-202 | a transport failure of the file download or the version check reaches the caller as the exception itself |
| SketchwareAPIClient.MinVersion | src/commonMain/kotlin/io/sketchware/api/SketchwareAPIClient.kt:44-45 | the version check is an unwrapped GET of `baseUrl + "/min_sketchware_version.txt"` read as an Int |
| SketchwareAPIClient.UrlBaseInjective | src/commonMain/kotlin/io/sketchware/api/SketchwareAPIClient.kt:475 | two URLs with the same path are equal if and only if their base URLs are |
| SketchwareAPIClient.FixedAuthorizeUrl | src/commonMain/kotlin/io/sketchware/api/SketchwareAPIClient.kt:470-485 | the login does not depend on the base URL, and it equals UserAPI's login if and only if the base URL is "https://sketchware.io", so not for the default client |
| SketchwareAPIClient.LoginEndpoint | src/commonMain/kotlin/io/sketchware/api/SketchwareAPIClient.kt:470-485 | the login is a wrapped POST of the login body to `https://sketchware.io/registerSnsUser.do`, decoded as one AuthorizedModel, whatever the base URL |
| SketchwareAPIClient.UserLoginEndpoint | src/commonMain/kotlin/io/sketchware/api/api/UserAPI.kt:77-91 | `UserAPI.authorizeUser` is a wrapped POST of the same login body to `$baseUrl/registerSnsUser.do`, decoded as one AuthorizedModel |
| SketchwareAPIClient.FixedUrlBase | src/commonMain/kotlin/io/sketchware/api/SketchwareAPIClient.kt:475 | the client's fixed login URL is the login path under a base URL exactly when that base is `https://sketchware.io` |
| SketchwareAPIClient.AgreesWithProjects | src/commonMain/kotlin/io/sketchware/api/SketchwareAPIClient.kt:292-311 | the project calls make exactly the requests of ProjectsAPI |
| SketchwareAPIClient.DefaultClientRecentViews | src/commonMain/kotlin/io/sketchware/api/SketchwareAPIClient.kt:22-53 | a client with the default base URL asks for every page of recent views at `http://sketchware.io/reqRecentSharedViews.do` |
| SketchwareAPIClient.RecentListingUrl | src/commonMain/kotlin/io/sketchware/api/SketchwareAPIClient.kt:52-79 | every page of a recent listing of the client goes to `$baseUrl/reqRecentShared<kinds>.do` |

## Left out

- The Ktor client and its configuration are not modelled: the CIO engine, JSON feature, logging, default content type and default response validation. They are network I/O. The transport is a parameter of the model instead. A non-2xx status that the validation would raise is one of its `Exn` causes (`StatusFailure`).
- `suspend` and coroutines are not modelled. Every call is a plain function from the transport's outcome.
- `Throwable`s that are not `Exception`s are not modelled. `postRequest` does not catch them, and the model's transport only ever fails with an exception.
- JSON text is left out. Lexing, printing, whitespace and escaping are absent; JSON is an already-parsed value, and numbers are integers because every numeric property of the service is integral.
- The decoder is modelled on the streaming decoder that `KotlinxSerializer()` installs with its default `Json` configuration. Only the object-level rules listed above are modelled; options that configuration leaves off (lenient parsing, ignoring unknown keys, coercing input values) are not.
- StringLongSerializer.Deserialize: accepts only the ASCII digits '0'-'9'. `String.toLong()` also accepts other Unicode decimal digits.
- StringLongSerializer.NonNumericFails: also counts a non-ASCII Unicode decimal digit, such as an Arabic-Indic digit, as non-numeric. `String.toLong()` accepts such digits, so for them the lemma is stronger than the source.
- Schema.FirstFailure: the causes carry only the property's name, the unknown key or the input string. They do not carry the serializer's message text or the position in the input.
- Schema.NumberIn: a quoted numeral for an Int or Long is read with the same rules as `String.toLong()`, ASCII digits only, as the codec is.
- Endpoints.Receive: reads the version check's reply as a JSON number in the 32-bit range. How Ktor turns a plain-text body into an `Int` is not modelled further.
- SharedCollectionsAPI.UploadSendsNoBody: captures only the upload's URL and the absence of a body. The multipart upload builds a `ContentDisposition` and discards it, and nothing further is modelled.
- BaseSharedSchema.ViewSummary: takes the success of the decode as a premise. The example object's other members are arbitrary, so they may or may not decode.
- The Java wrapper (`SketchcodeJavaAPIClient`) is not modelled: it is coroutine launching and callback glue with no logic of its own. `ResponseCallback` is an interface only.
- The build script is not modelled.
