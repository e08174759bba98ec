# ShopMe backend: offer search, criteria, stores and registration, in Dafny

ShopMe is a classified-ads backend. Users register, log in and out, and post
offers that others search by title, date and price. This project models the
parts of the backend that carry real logic, and proves properties of them:

- **Offer search** (`OfferSearch`, offer_search.dfy). `OfferController.searchOffers`:
  - The raw page, page size, sort field and order are defaulted or capped into a zero-based page request. The subtraction `pageNumber - FIRST_PAGE` is 32-bit.
  - A raw title is guarded, truncated, stripped to the acceptable characters, lower-cased and split on `" "` with Java's meaning of `split`.
  - Each keyword becomes one `("title", ":", keyword)` criterion.
  - The filter is built before the date and price criteria are added, so it depends on the title alone.
- **Java text operations** (`JavaText`, java_text.dfy): `substring` truncation, `replaceAll` of a negated character class, per-character `toLowerCase`, `Collectors.joining`, and `String.split(" ")`. `split` is proved to undo joining with single spaces.
- **The criteria builder** (`Criteria`, criteria.dfy). `OfferSpecificationsBuilder` collects criteria in a list. Its `build` loops first fill the per-criterion specifications, then fold them into a left-nested conjunction. It builds "no filter" when the list is empty. The built filter admits an offer iff every criterion accepts it. What one criterion tests is the parameter `accepts`.
- **The offer store** (`OfferStore`, offer_store.dfy). `OfferService` works over a map from id to offer: `get`, `add` (which validates first), `update`, `delete` and `getAll`. The failures are `NotFound` and `ConstraintViolation`.
- **The revoked-token store** (`RevokedTokens`, revoked_tokens.dfy). `RevokedTokenService` keeps the stored `(userId, expirationDate)` pairs. `logout` sweeps them lazily, gated on `nextTokenRemoval`, and then saves the new pair.
- **Registration** (`Registration`, users.dfy). `UserController`:
  - sign-up with the first-user-is-ADMIN rule;
  - self-only deletion, which also deletes the user's offers;
  - login by lower-cased e-mail;
  - logout;
  - the conversions between request, database and view records. The password never reaches the view, and the invoice is copied only when requested.
- **Field constraints** (`UserEntity` and `OwnerEntity`, field_constraints.dfy). The Bean Validation annotations on `User` and `Owner` are modelled as the set of violations a record has.

The clock (`System.currentTimeMillis`), `UUID.randomUUID`, the validators, the password encoder, the token service, lower-casing of one character, the e-mail check of `@Email`, and the repository's expiry query are all parameters of the model.

## Model

| member | source | states |
|---|---|---|
| Common.Wrap32 | backend/src/main/java/com/intive/shopme/controller/OfferController.java:134 | Java `int` arithmetic: the result is congruent to the exact value modulo 2^32 and equals it when it fits |
| Common.Wrap64 | backend/src/main/java/com/intive/shopme/registration/RevokedTokenService.java:38 | Java `long` arithmetic: the result is congruent to the exact value modulo 2^64 and equals it when it fits |
| JavaText.Truncate | backend/src/main/java/com/intive/shopme/controller/OfferController.java:140-141 | `substring(0, min(length, max))`: the first min(length, max) characters of the input, so the whole input when it is short enough |
| JavaText.RemoveDisallowed | backend/src/main/java/com/intive/shopme/controller/OfferController.java:142 | `replaceAll("[^…]", "")`: every remaining character is allowed, each allowed character occurs exactly as often as in the input, and an all-allowed input is unchanged |
| JavaText.RemoveDisallowedConcat | backend/src/main/java/com/intive/shopme/controller/OfferController.java:142 | the allowed characters keep their order: stripping a concatenation is the concatenation of the stripped parts |
| JavaText.ToLowerCase | backend/src/main/java/com/intive/shopme/controller/OfferController.java:143 | lower-casing keeps the length and maps each character |
| JavaText.Join | backend/src/main/java/com/intive/shopme/registration/UserController.java:215-217 | defined as the parts with the separator between neighbours, as `Collectors.joining`; characterised by JoinPieces, PiecesJoin and JoinHasSeparator |
| JavaText.Pieces | backend/src/main/java/com/intive/shopme/controller/OfferController.java:143 | cutting at every separator gives at least one piece, and no piece holds the separator |
| JavaText.DropTrailingEmpty | backend/src/main/java/com/intive/shopme/controller/OfferController.java:143 | the result is a prefix of the pieces, and it drops only empty pieces, ending on a non-empty one |
| JavaText.JoinPieces | backend/src/main/java/com/intive/shopme/controller/OfferController.java:143 | joining the pieces of a string with the separator gives back the string |
| JavaText.PiecesJoin | backend/src/main/java/com/intive/shopme/controller/OfferController.java:143 | cutting a joined list of separator-free parts at the separator gives back the parts |
| JavaText.SplitIsJavaSplit | backend/src/main/java/com/intive/shopme/controller/OfferController.java:143 | `split(" ")` is the pieces with the trailing empty ones dropped, or the whole string when it has no space |
| JavaText.SplitParts | backend/src/main/java/com/intive/shopme/controller/OfferController.java:143 | no part of `split(" ")` holds a space or is longer than the input |
| JavaText.SplitOfJoin | backend/src/main/java/com/intive/shopme/controller/OfferController.java:143 | `split(" ")` undoes joining with spaces when no part holds a space and the last of several parts is not empty |
| JavaText.SplitExamples | backend/src/main/java/com/intive/shopme/controller/OfferController.java:143 | `""` splits to `[""]`, `" "` to `[]`, and leading and interior empty pieces are kept |
| JavaText.Split | backend/src/main/java/com/intive/shopme/controller/OfferController.java:143 | defined as `[s]` when `s` has no space, and otherwise the pieces with the trailing empty ones dropped; characterised by SplitIsJavaSplit, SplitParts, SplitOfJoin and SplitExamples |
| JavaText.IsNumericId | backend/src/main/java/com/intive/shopme/controller/OfferController.java:138 | defined as `matches("^[0-9]{2,}$")`: two or more characters, all decimal digits; characterised by OfferSearch.TitleGuard |
| Criteria.FoldIsConjunction | backend/src/main/java/com/intive/shopme/controller/filter/OfferSpecificationsBuilder.java:33-37 | the left-nested AND of the specifications holds iff every criterion accepts |
| Criteria.CompiledFilterIsConjunction | backend/src/main/java/com/intive/shopme/controller/filter/OfferSpecificationsBuilder.java:23-38 | the built filter admits an offer iff every criterion accepts it, and no filter admits all |
| Criteria.CompileOrderIrrelevant | backend/src/main/java/com/intive/shopme/controller/filter/OfferSpecificationsBuilder.java:28-37 | criteria lists with the same elements, in any order and multiplicity, build filters that admit the same offers |
| Criteria.CompileSingle | backend/src/main/java/com/intive/shopme/controller/filter/OfferSpecificationsBuilder.java:33-34 | one criterion builds that criterion's specification alone |
| Criteria.Fold | backend/src/main/java/com/intive/shopme/controller/filter/OfferSpecificationsBuilder.java:33-37 | defined as the left-nested AND `where(...).and(...)` of one specification per criterion, in list order; characterised by FoldIsConjunction |
| Criteria.Compile | backend/src/main/java/com/intive/shopme/controller/filter/OfferSpecificationsBuilder.java:23-38 | defined as no filter for an empty list and the fold otherwise; characterised by CompiledFilterIsConjunction, CompileOrderIrrelevant and CompileSingle, and proved equal to what the loops of Build compute |
| Criteria.OfferSpecificationsBuilder.constructor | backend/src/main/java/com/intive/shopme/controller/filter/OfferSpecificationsBuilder.java:14-16 | a fresh builder holds no criteria |
| Criteria.OfferSpecificationsBuilder.With | backend/src/main/java/com/intive/shopme/controller/filter/OfferSpecificationsBuilder.java:18-21 | appends exactly one criterion at the end and returns the builder itself |
| Criteria.OfferSpecificationsBuilder.Build | backend/src/main/java/com/intive/shopme/controller/filter/OfferSpecificationsBuilder.java:23-38 | the two loops produce the compiled filter, which is null exactly for an empty list; the list is not modified |
| Criteria.BuildThenWith | backend/src/main/java/com/intive/shopme/controller/filter/OfferSpecificationsBuilder.java:18-38 | a filter that was already built is not changed by a later `with`; only a new `build` includes the extra criterion |
| OfferStore.OfferService.GetAll | backend/src/main/java/com/intive/shopme/service/OfferService.java:34-36 | the page request is passed on unchanged, and a stored offer is a candidate iff the filter admits it |
| OfferStore.OfferService.Get | backend/src/main/java/com/intive/shopme/service/OfferService.java:38-40 | the stored offer when the id is present, otherwise NotFound |
| OfferStore.OfferService.Add | backend/src/main/java/com/intive/shopme/service/OfferService.java:42-45 | an invalid offer is a ConstraintViolation and nothing is saved; a valid one is saved under its id without an existence check, and `get` returns it |
| OfferStore.OfferService.Update | backend/src/main/java/com/intive/shopme/service/OfferService.java:47-52 | an absent id is NotFound with the store unchanged; otherwise only that entry is replaced |
| OfferStore.OfferService.Delete | backend/src/main/java/com/intive/shopme/service/OfferService.java:54-59 | an absent id is NotFound with the store unchanged; otherwise only that id is removed |
| OfferStore.NoFilterAdmitsAll | backend/src/main/java/com/intive/shopme/service/OfferService.java:34-36 | with no filter every stored offer is a candidate, and any filter only narrows the set |
| RevokedTokens.RemoveExpired | backend/src/main/java/com/intive/shopme/registration/RevokedTokenService.java:39 | the query keeps exactly the rows that have not expired, each as often as it was stored |
| RevokedTokens.RevokedTokenService.constructor | backend/src/main/java/com/intive/shopme/registration/RevokedTokenService.java:16-23 | the service starts over the given rows with `nextTokenRemoval` at 0 |
| RevokedTokens.RevokedTokenService.IsRevoked | backend/src/main/java/com/intive/shopme/registration/RevokedTokenService.java:30-34 | holds iff a row with exactly that user id and expiration date is stored, and reads state without changing it |
| RevokedTokens.RevokedTokenService.RemoveExpiredTokens | backend/src/main/java/com/intive/shopme/registration/RevokedTokenService.java:36-41 | a sweep runs only when now > nextTokenRemoval; a sweep moves nextTokenRemoval to now + interval and removes the expired rows, and otherwise nothing changes |
| RevokedTokens.RevokedTokenService.Logout | backend/src/main/java/com/intive/shopme/registration/RevokedTokenService.java:25-28 | the store is the swept (or unchanged) store plus the saved pair; the pair is revoked afterwards; a pair is revoked iff it is the new one or it was revoked and was not swept away |
| RevokedTokens.FirstLogoutSweeps | backend/src/main/java/com/intive/shopme/registration/RevokedTokenService.java:18 | on a fresh service the first logout at a positive time sweeps |
| RevokedTokens.SecondLogoutDoesNotSweep | backend/src/main/java/com/intive/shopme/registration/RevokedTokenService.java:37-38 | on a clock that does not go back, a second logout no later than the new nextTokenRemoval only appends its pair, and nextTokenRemoval stays at the first logout time plus the interval |
| OfferSearch.PageNumberRule | backend/src/main/java/com/intive/shopme/controller/OfferController.java:117-122 | the page number is DEFAULT_PAGE when absent or below FIRST_PAGE, and otherwise the given number |
| OfferSearch.PageSizeRule | backend/src/main/java/com/intive/shopme/controller/OfferController.java:124-129 | the page size is DEFAULT_PAGE_SIZE when absent, and otherwise min(given, PAGE_SIZE_MAX), with zero and negative sizes passed on |
| OfferSearch.SortRule | backend/src/main/java/com/intive/shopme/controller/OfferController.java:131-132 | the sort field and direction take their defaults only when absent |
| OfferSearch.PageNumber | backend/src/main/java/com/intive/shopme/controller/OfferController.java:117-122 | defined as the requested page unless it is absent or below FIRST_PAGE, and DEFAULT_PAGE otherwise; characterised by PageNumberRule |
| OfferSearch.PageSize | backend/src/main/java/com/intive/shopme/controller/OfferController.java:124-129 | defined as the requested size capped at PAGE_SIZE_MAX, and DEFAULT_PAGE_SIZE when absent; characterised by PageSizeRule |
| OfferSearch.SortField | backend/src/main/java/com/intive/shopme/controller/OfferController.java:131 | defined as `sort.orElse(DEFAULT_SORT_FIELD)`; characterised by SortRule |
| OfferSearch.SortOrder | backend/src/main/java/com/intive/shopme/controller/OfferController.java:132 | defined as `order.orElse(DEFAULT_SORT_DIRECTION)`; characterised by SortRule |
| OfferSearch.Pageable | backend/src/main/java/com/intive/shopme/controller/OfferController.java:134-135 | defined as the page request of the 32-bit `pageNumber - FIRST_PAGE`, the page size, the direction and the sort field; characterised by PageIndexNonNegative, and it is the request SearchOffers passes on |
| OfferSearch.PageIndexNonNegative | backend/src/main/java/com/intive/shopme/controller/OfferController.java:134 | with 0 <= FIRST_PAGE <= DEFAULT_PAGE the page index is pageNumber - FIRST_PAGE without wrap, and it is >= 0 |
| OfferSearch.KeywordsBounded | backend/src/main/java/com/intive/shopme/controller/OfferController.java:139-143 | every keyword is at most OFFER_TITLE_MAX_LENGTH long and holds no space |
| OfferSearch.TitleGuard | backend/src/main/java/com/intive/shopme/controller/OfferController.java:138 | every absent, empty, one-character or all-digit (two or more digits) title gives no keyword; the test is on the raw string, so "12 34" is searched |
| OfferSearch.TitleSearched | backend/src/main/java/com/intive/shopme/controller/OfferController.java:138 | defined as: present, longer than one character and not `matches("^[0-9]{2,}$")`; characterised by TitleGuard |
| OfferSearch.TitleKeywords | backend/src/main/java/com/intive/shopme/controller/OfferController.java:139-143 | defined as `split(" ")` of lower-case(strip(truncate(title))) when the title is searched, and no keyword otherwise; characterised by KeywordsBounded, TitleGuard, KeywordsOfLowerCaseWords and ShortNumericKeywordKept |
| OfferSearch.KeywordsOfLowerCaseWords | backend/src/main/java/com/intive/shopme/controller/OfferController.java:139-143 | a title of allowed, lower-case words gives exactly those words as keywords, with short, numeric and empty ones kept |
| OfferSearch.ShortNumericKeywordKept | backend/src/main/java/com/intive/shopme/controller/OfferController.java:139-146 | "red bike 2" yields the keywords red, bike and 2 |
| OfferSearch.TitleCriteria | backend/src/main/java/com/intive/shopme/controller/OfferController.java:144-146 | one ("title", ":", keyword) criterion per keyword, in keyword order |
| OfferSearch.SearchFilter | backend/src/main/java/com/intive/shopme/controller/OfferController.java:137-148 | defined as the compiled filter of the title criteria of the keywords alone; characterised by NoKeywordNoFilter and SearchFilterIsKeywordConjunction, and it is the filter SearchOffers passes on |
| OfferSearch.DateAndPriceCriteria | backend/src/main/java/com/intive/shopme/controller/OfferController.java:150-153 | defined as the date bounds then the price bounds, each only when present; SearchOffers proves the builder ends with them, after the filter was built |
| OfferSearch.NoKeywordNoFilter | backend/src/main/java/com/intive/shopme/controller/OfferController.java:138-148 | the filter is null exactly when there is no keyword, and so whenever the title guard fails |
| OfferSearch.SearchFilterIsKeywordConjunction | backend/src/main/java/com/intive/shopme/controller/OfferController.java:137-148 | the search filter admits an offer iff every keyword's title criterion accepts it |
| OfferSearch.AddTitleKeywords | backend/src/main/java/com/intive/shopme/controller/OfferController.java:144-146 | the loop appends the keywords' title criteria to the builder, in order |
| OfferSearch.IfPresent | backend/src/main/java/com/intive/shopme/controller/OfferController.java:150-153 | `ifPresent` appends the criterion exactly when the parameter is present |
| OfferSearch.AddTitleAndBuild | backend/src/main/java/com/intive/shopme/controller/OfferController.java:137-148 | a fresh builder gets the title criteria only when the guard passes, and the built filter is the one for the title |
| OfferSearch.OfferController.SearchOffers | backend/src/main/java/com/intive/shopme/controller/OfferController.java:107-156 | the answer is `getAll` of the normalised page request and the title-only filter; the builder ends with the title criteria followed by the date and price criteria, which never reach the query |
| OfferSearch.SearchCandidates | backend/src/main/java/com/intive/shopme/controller/OfferController.java:148-155 | a stored offer is a search candidate iff every title keyword's criterion accepts it; dates and prices play no part |
| Registration.CreateErrorString | backend/src/main/java/com/intive/shopme/registration/UserController.java:214-218 | the errors' `toString()` renderings joined with ",": empty for none, the rendering itself for one, and otherwise the first rendering, a comma, then the rest joined |
| Registration.ErrorStringReadsBack | backend/src/main/java/com/intive/shopme/registration/UserController.java:214-218 | for comma-free renderings only: cutting the error string at every comma gives them back, when there is at least one; Spring's renderings hold commas, so this half does not cover the strings the code joins |
| Registration.ErrorStringOfPieces | backend/src/main/java/com/intive/shopme/registration/UserController.java:214-218 | the half that holds for every string: each string is the error string of its comma-separated pieces |
| Registration.ConvertToView | backend/src/main/java/com/intive/shopme/registration/UserController.java:221-248 | the view never carries a password, and it has an invoice iff one was requested and present |
| Registration.ConvertToDbModel | backend/src/main/java/com/intive/shopme/registration/UserController.java:251-279 | the stored e-mail is the lower-cased request e-mail, the password is encoded, the roles are the requested ones, and the invoice is copied only when requested and present |
| Registration.ViewOfRequest | backend/src/main/java/com/intive/shopme/registration/UserController.java:221-279 | the view of a converted request shows the request's fields, with a lower-cased e-mail, no password, and the invoice only when it was requested |
| Registration.InvoiceRuleAgrees | backend/src/main/java/com/intive/shopme/registration/UserController.java:241-243 | converting to the view keeps the invoice the database model holds |
| Registration.LowerCaseIdempotent | backend/src/main/java/com/intive/shopme/registration/UserController.java:173 | lower-casing an already lower-cased e-mail changes nothing |
| Registration.NewRoles | backend/src/main/java/com/intive/shopme/registration/UserController.java:114-117 | a new user keeps the requested roles and gets USER, and has ADMIN iff it was requested or the user count was 0 |
| Registration.UserController.NewUser | backend/src/main/java/com/intive/shopme/registration/UserController.java:112-117 | the stored user has the drawn id, the role rule's roles, the lower-cased e-mail and the encoded password |
| Registration.UserController.AddErrors | backend/src/main/java/com/intive/shopme/registration/UserController.java:104-108 | defined as the binding errors followed by those of the invoice, voivodeship, e-mail and phone validators in that order, or none when the voivodeship is missing; Add answers 422 exactly when it is non-empty |
| Registration.UserController.Add | backend/src/main/java/com/intive/shopme/registration/UserController.java:102-119 | no voivodeship is a server error; any validation error is a 422 with the joined error renderings and nothing saved; otherwise the new user is stored under the drawn id and its view is returned |
| Registration.UserController.Delete | backend/src/main/java/com/intive/shopme/registration/UserController.java:141-153 | another user's id is 403 with nothing deleted; otherwise all of the user's offers and then the user are deleted |
| Registration.UserController.Login | backend/src/main/java/com/intive/shopme/registration/UserController.java:170-185 | the user is looked up by the lower-cased credential e-mail; the token carries that user's id, e-mail, names and roles, the expiration date and the exchanged JWT |
| Registration.UserController.Logout | backend/src/main/java/com/intive/shopme/registration/UserController.java:195-200 | revokes exactly the authenticated context's (user id, expiration date) pair: the token store and nextTokenRemoval change as the revoked-token logout says, and a pair is revoked afterwards iff it is the context's or it was revoked and not swept away |
| Registration.SignUpThenLogin | backend/src/main/java/com/intive/shopme/registration/UserController.java:112-117 | the first user to sign up is an ADMIN, and a login with an e-mail that lower-cases to the same one finds a user |
| UserEntity.ValidIff | backend/src/main/java/com/intive/shopme/model/User.java:27-46 | a user is valid iff the name is present, 3 to 20 long and of allowed letters, a present e-mail passes `@Email`, a present phone has 9 or 10 digits, and present information has at most 800 characters |
| UserEntity.PhoneRules | backend/src/main/java/com/intive/shopme/model/User.java:37-38 | a present phone number is reported for a wrong length and for a non-digit, each on its own |
| UserEntity.MissingName | backend/src/main/java/com/intive/shopme/model/User.java:27-29 | a missing name is reported as null only, never as a length or pattern error |
| UserEntity.Violations | backend/src/main/java/com/intive/shopme/model/User.java:27-46 | defined as one violation per failed annotation, with only @NotNull rejecting null; characterised by ValidIff, PhoneRules and MissingName |
| OwnerEntity.ValidIff | backend/src/main/java/com/intive/shopme/offer/Owner.java:30-59 | an owner is valid iff the name is present, within the configured lengths and of allowed letters, a present e-mail passes `@Email`, a present phone has 9 or 10 digits, and present information is within the configured maximum |
| OwnerEntity.CityAndVoivodeshipFree | backend/src/main/java/com/intive/shopme/offer/Owner.java:46-54 | city and voivodeship carry no constraint |
| OwnerEntity.SameNameAlphabet | backend/src/main/java/com/intive/shopme/offer/Owner.java:32 | the owner's name alphabet is the user's |
| OwnerEntity.SameRulesAsUser | backend/src/main/java/com/intive/shopme/offer/Owner.java:30-59 | with limits 3, 20 and 800 the owner's annotations report the same violations as the user's |
| OwnerEntity.Violations | backend/src/main/java/com/intive/shopme/offer/Owner.java:30-59 | defined as one violation per failed annotation, with the configured limits and only @NotNull rejecting null; characterised by ValidIff, CityAndVoivodeshipFree and SameRulesAsUser |

## Left out

- Spring MVC, Swagger and security annotations. HTTP statuses appear only as response values (201, 403, 422), and `@PreAuthorize` is not modelled.
- JPA: `Specification`/`Specifications` are a datatype, and `OfferSpecification.toPredicate` is the parameter `accepts`.
- `findAll(filter, pageable)`: its sorting and page slicing are not modelled. `GetAll` yields the page request and the set of offers the filter admits.
- `PageRequest.of` and `Direction.fromString` are library calls. Their exceptions, for a page index below 0, a size below 1 or an unknown direction, are not modelled, and the page request is a plain record.
- Float prices are carried as their 32-bit pattern and never computed on. They never reach the filter.
- Regex engine details:
  - The title pattern `[^…]` is a set of allowed characters.
  - `toLowerCase` is a per-character map, so locale rules and length-changing case mappings are not modelled.
  - Lengths count Dafny characters, not UTF-16 code units.
- `@Email` is the one parameter `emailOk` for both entities, although User.java uses Hibernate's `org.hibernate.validator.constraints.Email` and Owner.java uses `javax.validation.constraints.Email`. OwnerEntity.SameRulesAsUser relies on that shared parameter. The validators of `UserController` are parameters that return the `toString()` of each error they add, which is what `createErrorString` joins.
- `javax.validation` of an offer in `OfferService.validate` is the parameter `isValid`, because the constraints of Offer.java are not part of this model.
- `System.currentTimeMillis`: both readings in `removeExpiredTokens` are the one parameter `now`.
- The race on the static `nextTokenRemoval` is concurrency, which is not modelled. Calls are sequential, and the static field is a field of the one service object.
- The repository's `removeExpiredTokens` query is the parameter `expired`, because its text is not part of this model.
- `PasswordEncoder`, `TokenService` (JWT issuance and its expiration date) and `UUID.randomUUID` are parameters.
- What `UserService`, `offerService.deleteAllByUser` and `findOneByEmail` do is not part of this model. The model assumes:
  - `get` of an absent user is a not-found answer;
  - `deleteAllByUser` removes the offers whose owner is that user;
  - `createOrUpdate` saves under the id and answers the saved user;
  - `findOneByEmail` finds some user with exactly that e-mail, or none.
- RevokedTokens.RevokedTokenService.Logout: `DbRevokedToken` and its repository are not part of this model. The model assumes that `repository.save` appends a row, so a pair logged out twice is stored twice. It also assumes that `findOneByUserIdAndExpirationDate(...) != null` is a plain membership test, even for a pair stored twice. With a generated key, a single-result query over two matching rows would throw instead. With the pair as the key, `save` would replace the row instead of appending one.
- `genericConvert` between the REST and database address, voivodeship and invoice records is the identity on opaque values.
- Registration.UserController.Add: the aliasing of the request's role set, which `addRole` mutates after `setRoles` shared it, is not modelled. The roles are a value.
- Registration.UserController.Add: e-mail, password and the invoice flag are never null in the model. A null for any of them, which the code dereferences, is not modelled. A missing voivodeship is modelled, as a server error.
- `get` and `existsByEmail` of `UserController` are single delegations to `UserService` and are not modelled. `whoAmI` returns its argument and is not modelled either.
- ExpiredTokenService.java, VoivodeshipController.java and WhiteSpaceTabulatorCheck.java are thin delegations or declarations and are not modelled.
- UserTest.java tests a REST `User` class that is not part of this model.
- The title and paging rules are those of the code, not of the Swagger text of `searchOffers` (OfferController.java:80-82 and :92, "range[1, …]" and "at least two characters"):
  - Single-character and numeric keywords are not dropped: only the whole raw title is guarded. An empty keyword from two adjacent spaces becomes a criterion too.
  - A zero or negative page size is not raised to a minimum.
- OfferStore.OfferService.Add: the id of an offer is never null in the model. Offer.java:17-18 generates the id of an offer saved without one, and the model stores every offer under the id it already has.
- OfferStore.OfferService.Update: an offer without an id, for which `existsById(null)` throws `IllegalArgumentException`, is not modelled.
- Registration.UserController.Login: the `NoSuchUser` answer is not in the code. UserController.java:173-174 passes whatever `findOneByEmail` returns, possibly null, straight to `exchangePasswordForToken`, with no check of its own. The model names that case instead of following the unseen services.
