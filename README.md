# LightBnB data-access layer, modelled in Dafny

LightBnB is a small property-rental web app. Its data-access module
(`LightBnB_WebApp/db/database.js`) exposes six functions, each of which sends
one parameterised SQL query to a PostgreSQL connection pool:

- `getUserWithEmail` looks a user up by lower-cased email.
- `getUserWithId` looks a user up by id.
- `addUser` inserts a user.
- `getAllReservations` lists a guest's past reservations.
- `getAllProperties` lists properties with optional filters.
- `addProperty` inserts a property.

This project models three things:

- The query every function builds: its text and its bind parameters.
- The way each function shapes what the pool answers into what its own promise resolves or rejects with.
- The dynamic query builder of `getAllProperties`, step by step.

The model has three modules:

- `JsRuntime` (`js_runtime.dfy`) covers the JavaScript behaviour the module relies on:
  - the truthiness of `if (options.x)`;
  - default parameters (`limit = 10`);
  - the text a template literal substitutes for a number (`$${queryParams.length}`);
  - `toLowerCase`.
- `PropertyListing` (`property_listing.dfy`) covers the builder of `getAllProperties`. The builder keeps two variables, `queryString` and `queryParams`, and updates them through a run of `if` blocks, so it is modelled imperatively:
  - Methods reassign the query text, the parameter list, and the list of clauses appended so far.
  - Each method is proved against a reference definition. That definition is a sequence of builder `Step`s run by the function `Run`.
  - The properties of the finished query are proved about `Run` by induction over the steps:
    - the placeholders are `$1..$n` in order;
    - `$k` binds the intended value;
    - there is one clause per truthy option;
    - the clauses come in the fixed order;
    - the limit is pushed last.
- `Database` (`database.dfy`) covers the fixed queries, the reply shaping and the six operations. The pool is a function parameter: whatever it answers for a query.

## Model

| member | source | states |
|---|---|---|
| JsRuntime.WithDefault | LightBnB_WebApp/db/database.js:125 | A default parameter applies exactly when the argument is `undefined`; `null`, `0`, `false` and `""` pass through. |
| JsRuntime.Truthy | LightBnB_WebApp/db/database.js:136 | An `if (options.x)` skips its block exactly when the option is `undefined`, `null`, `false`, `0` or `""`. Every other primitive value enters it. |
| JsRuntime.ToText | LightBnB_WebApp/db/database.js:137 | A template literal substitutes a string as itself and a number as its decimal text. `undefined`, `null`, `true` and `false` become their names. Among primitive values, the text is empty only for the empty string. |
| JsRuntime.NatToText | LightBnB_WebApp/db/database.js:138 | The text of `queryParams.length` is non-empty, all decimal digits, and has no leading zero. |
| JsRuntime.ParseNatToText | LightBnB_WebApp/db/database.js:138 | The decimal text written after `$` reads back as the number it renders. |
| JsRuntime.NatToTextInjective | LightBnB_WebApp/db/database.js:138 | Two placeholder numbers have the same text if and only if they are equal. |
| JsRuntime.IntToText | LightBnB_WebApp/db/database.js:137 | A number in a template literal renders with a leading minus exactly when it is negative. The digits after the sign read back as the number's magnitude and have no leading zero. |
| JsRuntime.ToLower | LightBnB_WebApp/db/database.js:28 | `toLowerCase` keeps the length and lowers each character in place. |
| JsRuntime.ToLowerIdentifiesCase | LightBnB_WebApp/db/database.js:28 | Two strings lower-case to the same string if and only if they differ only in the case of their letters. |
| JsRuntime.ToLowerIsLowerCase | LightBnB_WebApp/db/database.js:28 | Lower-casing yields a lower-case string, and it leaves a string unchanged exactly when that string is already lower case. |
| PropertyListing.CityPattern | LightBnB_WebApp/db/database.js:137 | The city parameter is the option's text with its case unchanged, between two `%` wildcards. |
| PropertyListing.AddFilter | LightBnB_WebApp/db/database.js:136-163 | One `if (options.x)` block. When the option is truthy, its value is pushed (the city as a pattern), then a clause numbered with the new parameter count is appended to the text. The new text, parameters and clauses are the reference builder's after one more test step. |
| PropertyListing.AddWhereFilters | LightBnB_WebApp/db/database.js:135-154 | The four WHERE filter blocks, in source order, leave the reference builder's state after the city, owner, minimum-price and maximum-price tests. |
| PropertyListing.AddGroupBy | LightBnB_WebApp/db/database.js:156-158 | `GROUP BY properties.id` is appended with no parameter, as the reference builder's group step does. |
| PropertyListing.AddOrderAndLimit | LightBnB_WebApp/db/database.js:165-169 | The limit is pushed, then ORDER BY and `LIMIT $n` are appended in one step, with `n` the new parameter count. |
| PropertyListing.BuildQuery | LightBnB_WebApp/db/database.js:125-169 | The built text and parameters are the reference builder's final state. The placeholders are `$1..$n` in order and each binds its intended value. The filters are exactly the truthy options, in the fixed order. There are `truthy + 1` parameters; the last is the limit (10 when `undefined`) and is the parameter of the final `LIMIT`. |
| PropertyListing.RunNumbered | LightBnB_WebApp/db/database.js:136-168 | After any run of builder steps, the placeholders are `$1..$n` in order, one per pushed parameter. |
| PropertyListing.RunBindsIntended | LightBnB_WebApp/db/database.js:136-168 | After any run of builder steps, every `$k` refers to `params[k-1]`, and that parameter is its clause's intended value: `%city%`, the option itself, or the limit. |
| PropertyListing.RunFilters | LightBnB_WebApp/db/database.js:136-163 | The filter clauses are those of the tests whose option is truthy, in step order. |
| PropertyListing.RunCount | LightBnB_WebApp/db/database.js:136-163 | Before the LIMIT step, exactly one parameter is pushed per truthy test. |
| PropertyListing.RunAscending | LightBnB_WebApp/db/database.js:136-169 | Steps in rising rank append clauses in rising rank, none ranked above the last step. |
| PropertyListing.RunMentions | LightBnB_WebApp/db/database.js:156-169 | Once its step has run, GROUP BY (or ORDER BY) is in the query. |
| PropertyListing.TruthyTestsExactly | LightBnB_WebApp/db/database.js:136-163 | A filter is among the truthy tests if and only if it is tested and its option is truthy. |
| PropertyListing.FinalOrder | LightBnB_WebApp/db/database.js:135-169 | The finished query's clauses are in the fixed order: WHERE filters, GROUP BY, HAVING, ORDER BY, LIMIT, each kind at most once. |
| PropertyListing.FinalFixedClauses | LightBnB_WebApp/db/database.js:156-169 | The finished query always has GROUP BY and ORDER BY. |
| PropertyListing.FinalCounts | LightBnB_WebApp/db/database.js:136-165 | The finished query filters on exactly the truthy options, in order, with one parameter for each plus one for the limit. |
| PropertyListing.FinalLimit | LightBnB_WebApp/db/database.js:165-168 | The limit is the last parameter, and the final clause is `LIMIT $n` with `n` the parameter count. |
| PropertyListing.FinalQuery | LightBnB_WebApp/db/database.js:125-169 | The finished query has every property of `FinalOrder`, `FinalFixedClauses`, `FinalCounts` and `FinalLimit`. Its placeholders are also numbered `$1..$n` and each is bound as intended. |
| PropertyListing.TruthyFiltersExactly | LightBnB_WebApp/db/database.js:136-160 | A filter's clause is present if and only if its option is truthy, so `undefined`, `null`, `false`, `0` and `""` add nothing. |
| PropertyListing.HavingOnlyAfterGroupBy | LightBnB_WebApp/db/database.js:156-162 | In a query in the fixed order, a filter comes after GROUP BY if and only if it is the rating (HAVING) filter. |
| PropertyListing.PriceBoundsInclusive | LightBnB_WebApp/db/database.js:146-154 | The minimum-price filter compares with `>=` and the maximum-price filter with `<=`. Their fragments are exactly ` AND cost_per_night/100 >= $k` and ` AND cost_per_night/100 <= $k`, so each bound admits a price equal to itself. |
| PropertyListing.PriceClauseText | LightBnB_WebApp/db/database.js:148-153 | A price fragment is ` AND cost_per_night/100 `, its operator, then ` $` and the parameter number, with no trailing space. |
| PropertyListing.RenderConnective | LightBnB_WebApp/db/database.js:138-162 | A filter's fragment opens with ` HAVING ` for the rating filter and ` AND ` for the other filters, followed by its column. |
| PropertyListing.PlaceholderPos | LightBnB_WebApp/db/database.js:136-168 | Every filter and LIMIT fragment writes `$` followed by the digits of its parameter number. Those digits read back as that number, and within the fragment no further digit follows them. |
| PropertyListing.QueryTextStartsWithSelect | LightBnB_WebApp/db/database.js:128-133 | Every built query starts with the fixed `SELECT ... WHERE TRUE` head, and is just that head when no clause has been appended. |
| Database.Get | LightBnB_WebApp/db/database.js:75 | Reading a property of an object gives its value when it is present, and `undefined` when it is missing. |
| Database.UserByEmailQuery | LightBnB_WebApp/db/database.js:22-28 | The email lookup has one parameter. It is lower case and differs from the argument only in the case of its letters. |
| Database.UserByIdQuery | LightBnB_WebApp/db/database.js:44-50 | The id lookup has one parameter, the id unchanged. |
| Database.ValuePlaceholders | LightBnB_WebApp/db/database.js:71 | The k-th placeholder of a VALUES tuple is `$` followed by digits that read back as k and do not start with `0`, so the tuple lists `$1..$n` in order. |
| Database.AddUserQuery | LightBnB_WebApp/db/database.js:67-75 | The text is generated from the column list `name, email, password`, with the VALUES tuple `$1, $2, $3`. The k-th parameter is the user's property named by the k-th column, which is the column `$k` stands under. |
| Database.ReservationsQuery | LightBnB_WebApp/db/database.js:92-105 | The parameters are the guest id, then the limit argument itself, or 10 when it is `undefined`. |
| Database.AddPropertyQuery | LightBnB_WebApp/db/database.js:181-206 | The text is generated from the fourteen-column list, with the VALUES tuple `$1..$14`. The fourteen values of lines 192-205 are, in order, the property's values for those columns, so `$k` binds the value of the k-th column. |
| Database.LookupReply | LightBnB_WebApp/db/database.js:30-36 | A lookup resolves to the first row, to `null` exactly when there are no rows, and to `undefined` exactly when the query failed. It never rejects. |
| Database.InsertReply | LightBnB_WebApp/db/database.js:77-82 | An insert resolves to `rows[0]` when a row came back and to `undefined` otherwise, including on failure. It never resolves to `null` and never rejects. |
| Database.ListReply | LightBnB_WebApp/db/database.js:107-114 | The reservations list resolves to all rows, or to `undefined` exactly when the query failed. |
| Database.PropertiesReply | LightBnB_WebApp/db/database.js:172 | The property list resolves to all rows. It rejects, with the pool's error, exactly when the query failed. |
| Database.GetUserWithEmail | LightBnB_WebApp/db/database.js:22-37 | The call throws if and only if the email is not a string. Otherwise it resolves: to the first row when the lower-cased lookup returns rows, to `null` exactly when it returns none, and to `undefined` exactly when it fails. |
| Database.GetUserWithId | LightBnB_WebApp/db/database.js:44-59 | The call resolves: to the first row when the id lookup returns rows, to `null` exactly when it returns none, and to `undefined` exactly when it fails. |
| Database.AddUser | LightBnB_WebApp/db/database.js:66-83 | The call resolves to the returned row when there is one, and to `undefined` otherwise. |
| Database.GetAllReservations | LightBnB_WebApp/db/database.js:92-115 | The call resolves to all rows of the reservations query, or to `undefined` on failure. |
| Database.AddProperty | LightBnB_WebApp/db/database.js:180-214 | The call resolves to the returned row when there is one, and to `undefined` otherwise. |
| Database.GetAllProperties | LightBnB_WebApp/db/database.js:125-173 | The pool is sent the built query, which has `truthy + 1` parameters with the limit last. The call resolves exactly when that query succeeds, to its rows. It rejects exactly when the query fails, with the pool's error message. |
| Database.EmailLookupIgnoresCase | LightBnB_WebApp/db/database.js:28 | Two emails issue the same lookup if and only if they differ only in case. Such emails get the same answer from any pool. |
| Database.OnlyPropertyListingRejects | LightBnB_WebApp/db/database.js:172 | A failed query reaches the caller as a rejection only from `getAllProperties`. Every other function resolves to `undefined`. |
| Database.SignUpFoundOnlyWhenLowerCase | LightBnB_WebApp/db/database.js:75 | As written, the stored email equals the lookup parameter for that same email if and only if the email has no upper-case letter. |
| Database.MixedCaseSignUpNotFound | LightBnB_WebApp/db/database.js:75 | A concrete sign-up with `Ann@lbnb.io` whose stored email never equals the lookup parameter. |
| Database.NormalizedAddUserQuery | LightBnB_WebApp/db/database.js:75 | The corrected insert stores a string email lower-cased, and that stored email equals the typed one up to the case of its letters. Name and password are kept as given. |
| Database.NormalizedSignUpFound | LightBnB_WebApp/db/database.js:28 | With the corrected insert, the lookup parameter for a typed email equals the stored one if and only if the two differ only in case. |

## Left out

- The connection pool, its credentials and the network: the pool is a function parameter from a query to its outcome. What PostgreSQL does with a query (`LIKE`, `avg`, `GROUP BY`, the join) is not modelled. The one exception is the exact comparison behind the sign-up finding.
- Promises, `then`/`catch` chaining and timing: each operation returns how its promise settles, as a value.
- `console.log` of errors and of the built query (lines 35, 57, 81, 113, 171, 212) is not modelled.
- The JSON fixtures `properties.json` and `users.json` (lines 1-2) are loaded but never used; they are not part of this model.
- JavaScript numbers are modelled as integers. Fractions, `NaN` and infinities do not occur.
- Objects and arrays as values: option values, `limit`, ids and object fields that are objects or arrays are not modelled. Such a value is always truthy, and a template literal renders it through its `toString`, so an empty array as `options.city` gives the pattern `%%`, which matches every city.
- JsRuntime.IntToText: renders every integer in plain decimal. JavaScript writes integers of 1e21 and above in exponent form (`1e+21`), and a JavaScript number is exact only up to 2^53.
- Database.GetUserWithEmail: the message of the `TypeError` thrown for a non-string email is modelled after V8's wording; engines word it differently.
- JsRuntime.ToLower: models `toLowerCase` on ASCII letters only; other Unicode case mappings are left out.
- An `options` argument that is `null` or `undefined`, or a `userObj` that is not an object: the model assumes an options record and a property map. Reading `options.city` or `userObj.name` on a missing object throws in the source.
- PropertyListing.AddFilter, PropertyListing.AddWhereFilters, PropertyListing.AddGroupBy and PropertyListing.AddOrderAndLimit: these split the body of `getAllProperties` into methods, one per block. The sequence of updates is the same as the source's.
- PropertyListing.BuildQuery: returns the clause list alongside the text and parameters. The clause list is how the text is explained; the source keeps only the text.

## Findings

| source | as written | input that shows it | evidently intended | confidence | as-written member | corrected member |
|---|---|---|---|---|---|---|
| LightBnB_WebApp/db/database.js:75 | `addUser` stores `userObj.email` as given. `getUserWithEmail` (line 28) lower-cases its argument and compares with `email = $1`. | Sign up with email `Ann@lbnb.io`; a later lookup of `Ann@lbnb.io` sends `ann@lbnb.io`, which does not equal the stored `Ann@lbnb.io`, so the user is never found. | Store the email lower-cased, so that lookups ignore case as line 28 means them to. | medium, not executed | Database.MixedCaseSignUpNotFound | Database.NormalizedSignUpFound |
