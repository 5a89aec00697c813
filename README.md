# User schema `website` getter, in Dafny

This project models the `User` schema of `project-1/app/models/user.server.model.js`. That file defines a user record for MongoDB. It has plain string fields, a `created` date and a `website` field that has a read-time getter. The getter normalises a url when the record is read. An absent or empty value is handed back as is. A url that already starts with `http://` or `https://` is handed back unchanged; the test is case-sensitive. Any other url gets `https://` put in front of it. The schema turns getters on for the JSON form of a record. So a user converted to JSON shows the normalised website, and the stored value is never rewritten.

Modules:

- `Wrappers` (`wrappers.dfy`): `Option`. `None` stands for a JavaScript `undefined` or `null`.
- `JsString` (`js_string.dfy`): `IndexOf`, which models the one-argument form of JavaScript's `String.prototype.indexOf`. It returns the first occurrence or -1, and the empty search string is found at 0. `IndexOfZeroIffPrefix` shows that the getter's `url.indexOf(p) !== 0` test means "`p` is not a prefix of `url`".
- `UserModel` (`user_model.dfy`): the getter `Normalize`, the `User` record, the JSON projection `ToJSON`, and the lemmas about them.

The getter's falsy test `!url` becomes: `None`, or `Some("")`. Records are values, so `ToJSON` builds a new record. Every stored record is therefore left as it was. That is what "the stored value is never rewritten" means here.

## Model

| member | source | states |
|---|---|---|
| JsString.IndexOf | project-1/app/models/user.server.model.js:20 | `s.indexOf(p)` is -1 when `p` occurs nowhere in `s`. Otherwise it is the smallest position at which `p` occurs, and `p` fits in `s` from there |
| JsString.IndexOfZeroIffPrefix | project-1/app/models/user.server.model.js:20 | `s.indexOf(p) === 0` holds exactly when `p` is a prefix of `s` |
| UserModel.Normalize | project-1/app/models/user.server.model.js:16-25 | an absent or empty url is returned as is; a non-empty url that starts with `http://` or `https://` is returned unchanged; any other non-empty url becomes exactly `"https://" + url` |
| UserModel.NormalizeHasScheme | project-1/app/models/user.server.model.js:17-23 | for every present, non-empty url, the value read back starts with `http://` or `https://` |
| UserModel.NormalizeIdempotent | project-1/app/models/user.server.model.js:16-25 | normalising twice gives the same as normalising once |
| UserModel.NormalizeFixedPoint | project-1/app/models/user.server.model.js:17-23 | the getter returns its input unchanged if and only if the input is absent, empty, or already starts with a recognised scheme |
| UserModel.NormalizeSuffix | project-1/app/models/user.server.model.js:20-23 | the result is present exactly when the input is; the stored url is a suffix of the value read; at most 8 characters, the length of `https://`, are added |
| UserModel.NormalizeBareHost | project-1/app/models/user.server.model.js:20-21 | `"example.com"` reads as `"https://example.com"` |
| UserModel.NormalizeKeepsHttp | project-1/app/models/user.server.model.js:20-23 | `"http://example.com"` reads back unchanged; `https://` is not forced onto an `http://` url |
| UserModel.NormalizeCaseSensitive | project-1/app/models/user.server.model.js:20-21 | the scheme test is case-sensitive: `"HTTP://x"` reads as `"https://HTTP://x"` |
| UserModel.ToJSON | project-1/app/models/user.server.model.js:4-28 | the JSON form keeps first name, last name, email, username, password and created as stored; only `website` goes through its getter |
| UserModel.ToJSONIdempotent | project-1/app/models/user.server.model.js:28 | converting a JSON form again changes nothing |
| UserModel.ToJSONFixedPoint | project-1/app/models/user.server.model.js:16-28 | the JSON form equals the stored record if and only if its website is absent, empty, or already has a recognised scheme |

## Left out

- The `created` default `Date.now` (user.server.model.js:10-13) reads the wall clock. `created` is carried as an optional timestamp and passed through unchanged. The default is not applied.
- `mongoose.model('User', UserSchema)` (user.server.model.js:30) registers the schema inside the mongoose library. Registration, persistence, type casting and validation are that library's internals.
- The fields that mongoose itself adds to a JSON form (`_id`, `__v`, and the `id` virtual that `getters: true` also brings in) are not modelled. Only the schema's declared fields are.
- A non-string value stored in `website` is not modelled. Mongoose casts the field to a string, so the getter sees a string or a falsy value.
- `project-1/config/mongoose.js` opens a database connection through the driver and loads the model file. That is I/O and a foreign call with no logic of its own.
- `connect-simple-server/server.js` registers handlers with the `connect` library, logs to the console and listens on a socket. Prefix matching and `next()` chaining happen inside that library, and that library is not part of this model.
- JsString.IndexOf: positions count Unicode scalar values (Dafny's `char`), not the UTF-16 code units JavaScript counts, and a lone surrogate cannot be represented. The optional `position` argument of `indexOf` is omitted. The getter is unaffected: it only compares the result with 0, and both prefixes are ASCII, so the 0 / not-0 outcome and the 8-character bound are the same in either unit.
- `null` and `undefined` are merged into `None`. The getter returns either one as it is, but a JSON form shows `"website": null` for one and no `website` key for the other; `ToJSON` does not say which.
