# Hardware availability and registration validators of the hackathon site

This project models two parts of the hackathon site's Django models in Dafny and proves properties about them.

**Hardware availability** (`hardware.dfy`, module `HardwareModels`). A hardware item has a fixed stock, `quantity_available`. The annotated manager adds two figures to every hardware row:

- `quantity_checked_out`: the number of distinct order items of that hardware that have no returned health and whose order is not a cart;
- `quantity_remaining`: the stock minus `quantity_checked_out`.

The database is a value `Store`, with one map per table keyed by primary key. The two figures are the functions `LiveItems`, `QuantityCheckedOut` and `QuantityRemaining`. `LiveItems` is a set of item ids, so each item counts at most once. Row updates are functions of the store:

- `RecordReturn`: a unit comes back with a health;
- `SetStatus`: an order's status changes;
- `CreateOrder` / `NewOrder`: a new order, which takes the default status "Cart";
- `AddItem`: a new order item.

Lemmas state how each update moves the figures. `Hardware` is a class for a model instance. Its method `RefreshFromDb` reloads the columns, then copies the two annotations from a fresh query, one name at a time, looping over `AnnotatedFields`.

**Registration** (`registration.dfy`, module `RegistrationModels`).

- `GenerateTeamCode` is the redraw loop that gives every Team its default code. The UUIDs it draws are an input sequence, and the Team table is a set of codes.
- The phone-number pattern `^(?:\+\d{1,3})?\s?\(?\d{3}\)?[\s-]?\d{3}[\s-]?\d{4}$` is a hand-written parser, `ParsePhoneNumber`. It reads ASCII characters from the right. It is proved to accept exactly the strings that split into the pattern's nine pieces (`MatchesPattern`).
- The graduation year has two range validators.

`wrappers.dfy` holds the `Option` type.

The models implement only the derivation and the validators; in particular:

- The code has no reservation step, no category or per-team limit check, no order state machine and no incident creation, so none of these are modelled.
- `quantity_remaining` is not kept non-negative. `RemainingCanBeNegative` shows a store where it is -1.
- Cancellation has no status of its own: the count leaves out only items whose order has status "Cart".

## Model

| member | source | states |
|---|---|---|
| `HardwareModels.AnnotatedQueryset` | hackathon_site/hardware/models.py:21-41 | every hardware row appears exactly once with its columns unchanged; its checked-out count is the number of live items of it (`|LiveItems(db, h)|`), between 0 and the number of order items referencing it; its remaining count is stock minus checked-out |
| `HardwareModels.IsLive` | hackathon_site/hardware/models.py:29-35 | a live item has no returned health; an item whose order row is missing is live exactly when it has no returned health, as SQL evaluates the negated status test over the outer join |
| `HardwareModels.LiveItems` | hackathon_site/hardware/models.py:27-36 | the counted items of h form a set of item ids (each counted at most once), all of them items referencing h |
| `HardwareModels.QuantityCheckedOut` | hackathon_site/hardware/models.py:27-36 | the checked-out count is at most the number of order items referencing h |
| `HardwareModels.QuantityRemaining` | hackathon_site/hardware/models.py:38-40 | remaining plus checked-out equals the stock; remaining lies between the stock minus the number of items of h and the stock |
| `HardwareModels.ItemContribution` | hackathon_site/hardware/models.py:27-36 | with the foreign keys intact, an item is counted for hardware h iff it references h, its returned health is unset and its order's status is not Cart |
| `HardwareModels.CartItemsNeverCount` | hackathon_site/hardware/models.py:31-33 | an item of a Cart order is counted for no hardware, whatever its health |
| `HardwareModels.ReturnedItemsNeverCount` | hackathon_site/hardware/models.py:30 | an item with any returned health (Healthy, Heavily Used, Broken, Lost) is counted for no hardware |
| `HardwareModels.RemainingCanBeNegative` | hackathon_site/hardware/models.py:38-40 | remaining is plain subtraction: zero stock with one unit out gives -1 |
| `HardwareModels.RecordReturn` | hackathon_site/hardware/models.py:94-96 | sets the item's part_returned_health to the given health, keeps its order and hardware, and leaves every other item, every order and every hardware row unchanged |
| `HardwareModels.ReturnFreesOneUnit` | hackathon_site/hardware/models.py:30 | recording a health on a live item of h lowers h's checked-out count by exactly 1, raises h's remaining count by exactly 1, and leaves every other hardware's count unchanged |
| `HardwareModels.ReturnOfIdleItemIsNeutral` | hackathon_site/hardware/models.py:30-33 | recording a health on an item that is not counted changes no count |
| `HardwareModels.SetStatus` | hackathon_site/hardware/models.py:109 | sets the order's status, keeps its team, and leaves every other order, every item and every hardware row unchanged |
| `HardwareModels.LeavingCartCommitsItems` | hackathon_site/hardware/models.py:31-33 | moving an order from Cart to any other status raises each hardware's count by the number of that order's unreturned items of it |
| `HardwareModels.StatusChangeAfterCartIsNeutral` | hackathon_site/hardware/models.py:100-105 | a change between two non-Cart statuses leaves every count unchanged |
| `HardwareModels.NewOrder` | hackathon_site/hardware/models.py:108-109 | an order created for a team without a status has status Cart |
| `HardwareModels.CreateOrder` | hackathon_site/hardware/models.py:108-109 | inserting an order adds exactly its key, with status Cart and the given team, and changes no other order, item or hardware row |
| `HardwareModels.AddItem` | hackathon_site/hardware/models.py:88-96 | inserting an order item adds exactly its key, with the given order and hardware and no returned health, and changes no other item, order or hardware row |
| `HardwareModels.NewOrderIsNeutral` | hackathon_site/hardware/models.py:109 | with the foreign keys intact, a new order (default status Cart) plus an item added to it leaves every count unchanged |
| `HardwareModels.CartItemIsNeutral` | hackathon_site/hardware/models.py:31-33 | an item added to an order whose status is Cart leaves every count unchanged |
| `HardwareModels.Reload` | hackathon_site/hardware/models.py:66-67 | for every column, the result holds the stored value if the field list reloads it and the current value otherwise; with no field list every column is reloaded, with an empty one none is |
| `HardwareModels.Hardware.FromQueryset` | hackathon_site/hardware/models.py:45 | an instance fetched through the annotated manager carries its row and its two freshly computed annotations |
| `HardwareModels.Hardware.SetAnnotated` | hackathon_site/hardware/models.py:75 | setattr of one annotated name sets that attribute and changes no other |
| `HardwareModels.Hardware.RefreshFromDb` | hackathon_site/hardware/models.py:66-75 | a missing row changes nothing and reports DoesNotExist; otherwise the columns are reloaded and both annotations equal the freshly computed values for the instance's key |
| `HardwareModels.RemainingAfterReturn` | hackathon_site/hardware/models.py:69-75 | after a unit is returned, an instance loaded earlier still shows the old remaining count, and shows one more after refreshing |
| `RegistrationModels.UpperString` | hackathon_site/registration/models.py:12 | upper-casing keeps the length and turns each lower-case hex digit into an upper-case one that lower-cases back |
| `RegistrationModels.TeamCodeOf` | hackathon_site/registration/models.py:12 | a drawn code has exactly 5 characters, all in 0-9A-F, and lower-cases back to the UUID's first five hex digits |
| `RegistrationModels.GenerateTeamCode` | hackathon_site/registration/models.py:11-15 | the result is the first drawn code not held by any Team; every earlier draw collided; a result is always a 5-character upper-case hex code |
| `RegistrationModels.ParsePhoneNumber` | hackathon_site/registration/models.py:73 | whatever the parser returns is a well-formed split into the pattern's nine pieces whose concatenation is the input |
| `RegistrationModels.IsValidPhoneNumber` | hackathon_site/registration/models.py:72-75 | every string the validator accepts is in the pattern's language |
| `RegistrationModels.ParseFlatten` | hackathon_site/registration/models.py:73 | parsing the concatenation of any well-formed split returns that split, so the split is unique |
| `RegistrationModels.RecognizerComplete` | hackathon_site/registration/models.py:73 | any string with a well-formed split into the nine pieces is accepted, so every string in the pattern's language is |
| `RegistrationModels.RecognizerCorrect` | hackathon_site/registration/models.py:72-75 | a string is accepted iff it is in the pattern's language |
| `RegistrationModels.PhoneNumberLength` | hackathon_site/registration/models.py:68-75 | every accepted phone number has 10 to 19 characters |
| `RegistrationModels.OpenParenthesisAloneAccepted` | hackathon_site/registration/models.py:73 | "(416 555 1234" is accepted: the parentheses need not balance |
| `RegistrationModels.CloseParenthesisAloneAccepted` | hackathon_site/registration/models.py:73 | "416) 555-1234" is accepted |
| `RegistrationModels.FullNumberAccepted` | hackathon_site/registration/models.py:73 | "+1 (416) 555-1234" is accepted |
| `RegistrationModels.ShortLineRefused` | hackathon_site/registration/models.py:73 | a three-digit line number is refused |
| `RegistrationModels.LongCountryCodeRefused` | hackathon_site/registration/models.py:73 | a four-digit country code is refused |
| `RegistrationModels.PhoneNumberErrors` | hackathon_site/registration/models.py:68-77 | a blank value raises only the blank error; the field raises no error iff the validator accepts the value; the pattern error is raised iff the value is non-blank and not accepted |
| `RegistrationModels.PhoneNumberValidation` | hackathon_site/registration/models.py:68-77 | the phone field raises no error iff the value is in the pattern's language; the max_length error never fires without the pattern error |
| `RegistrationModels.GraduationYearErrors` | hackathon_site/registration/models.py:82-92 | a graduation year raises no error iff 2000 <= year <= 2030; at most one error is raised, and it is the "realistic graduation year" error |

## Left out

- The database query machinery (querysets, Count/F/Q compilation, joins) is replaced by functions over `Store`. The filter is written as SQL evaluates it, so an item whose order row were missing would count. `Consistent` states the foreign-key integrity the database enforces.
- Status and health are enumerations. The database does not enforce the choices; a status string outside them would count like a non-Cart status.
- Orders, items and statuses change only through the row updates listed above. The source has no code that changes them, so transition rules, reservation, checkout limits and incident creation are not modelled.
- `Category.max_per_team`, `Hardware.max_per_team` and `Team.MAX_MEMBERS` are data only. Nothing in the models enforces them.
- The Incident model, timestamps, the picture, resume and file validators, `__str__` methods and the admin configuration are not modelled. They hold no availability or validation logic.
- Concurrency is not modelled. The team-code check-then-insert and the two queries of refresh_from_db each see one fixed store.
- `Hardware.RefreshFromDb` does not model the `using` argument, deferred fields (a plain refresh reloads every column here), clearing of cached relations, or refreshing the many-to-many categories.
- `GenerateTeamCode`: `uuid.uuid4()` is a supplied sequence of 32-digit lower-case hex strings. When the sequence runs out before a free code is found, the method returns None. The loop's termination depends on randomness and is not modelled.
- `GenerateTeamCode`: the check compares codes exactly as strings. Database collation is not modelled.
- `ParsePhoneNumber`: only ASCII is modelled. `\d` is 0-9. `\s` is the ASCII characters that Python's `\s` matches: 9-13, 28-31 and space. Other Unicode digits and white space are not modelled.
- `ParsePhoneNumber`: does not model `$` also matching just before a final newline, so "416-555-1234" followed by a newline is refused here, though the validator as written accepts it.
- Validation error messages are named constructors of `ValidationError` rather than text.
