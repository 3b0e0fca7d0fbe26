# Pharmacy order and catalog core, in Dafny

A verified model of three pieces of a pharmacy inventory backend built on a
REST framework:

- **The order status endpoint** (`OrderAPIView.patch`). A PATCH request may
  carry only the `status` key, and its value must be a known order status. The
  order must exist. The move must be Pending → Completed or Completed →
  Cancelled. Completing takes every line's quantity out of its stock batch;
  cancelling puts it back, and a deployment flag can reserve cancelling for
  superusers. `ProductViews.PatchOutcome` states the effect of one request on
  the stock and order tables. `ProductViews.OrderStore.Patch` is the handler
  itself, with the source's two loops over the order lines, proved equal to it.
  The permission rule shared by the product and stock viewsets is
  `ProductViews.Permissions`.
- **The catalog filters** (`ProductFilter`). These are the company,
  distribution and formula id-list filters, the expiry-bucket filter and the
  low-quantity filter. Each is a function from a sequence of products, each
  product with its stock batches, to the products it keeps or the error it
  raises.
- **The user serializer** (`UserSerializer`). `create` refuses a missing or
  empty password. `update` merges the supplied fields into the user row, keeps
  the username and id, and resets the password only when a non-empty one is
  given. The user is a class whose `Update` method assigns its fields one by
  one, as the source does.

Files: `wrappers.dfy` (Option, Result), `models.dfy` (Stock, Product, Order
and order-line shapes), `product_views.dfy`, `product_filters.dfy`,
`user_serializers.dfy`.

Inputs the source reads from its environment are parameters:

- `today` is a day number.
- The superuser-only cancel flag and the requester's superuser flag are
  booleans.
- The low-quantity enum's values and its two limits are a `LowQtyConfig`.
  Each limit is an exact ratio `num/den`, and "total < avg × limit" is
  compared as `total * den < avg * num`.

The order-status enum is not among the files modelled. It is the datatype
`Pending | Completed | Cancelled`, and its wire values "pending", "completed"
and "cancelled" are an assumption of the model (`ProductViews.StatusValue`).

Three behaviours of the code are easy to miss:

- Completing an order does not check that a batch still holds enough. A
  quantity can go below zero (`CompletionCanDriveStockNegative`).
- The low-quantity total sums only batches whose expiry date is today or
  later. The SQL comparison also leaves out batches with no expiry date
  (`LowQtyTotalUnexpired`).
- The combined expiry value lists a product with both an expired and a
  short-expired batch twice. `distinct` compares the two annotations too, and
  they differ between those batches (`CombinedListsTwice`).

## Model

| member | source | states |
|---|---|---|
| ProductViews.Permissions | pharmacy/pharmacy/product/views.py:43-48 | every action needs authentication; the admin permission is in the list exactly for update, partial_update and destroy |
| ProductViews.AdminGate | pharmacy/pharmacy/product/views.py:61-66 | a request passes the viewset gate iff the user is authenticated and, for update/partial_update/destroy, is staff |
| ProductViews.AllowedTargets | pharmacy/pharmacy/product/views.py:101-105 | the only moves are Pending→Completed and Completed→Cancelled; a cancelled order has none, and no state moves to itself |
| ProductViews.ParseStatus | pharmacy/pharmacy/product/views.py:94-99 | a status value is recognised iff it is the wire value of one of the three states, and names that state |
| ProductViews.PatchOutcome | pharmacy/pharmacy/product/views.py:86-154 | each refusal is stated as an if-and-only-if on the request: a body that is not exactly `status` is refused first, then an unknown status (before the lookup), then a missing order, then a move outside the allowed transitions (naming both states); the request is accepted iff the move is Pending→Completed, or Completed→Cancelled passing the superuser gate; a refusal changes no stock and no order; acceptance sets the requested status on that order only; completing lowers each stock by the quantity the order's lines take from it, cancelling raises it by the same |
| ProductViews.OrderStore.Patch | pharmacy/pharmacy/product/views.py:86-154 | the handler's response and the new stock and order tables are those of PatchOutcome; every order line still refers to an existing stock |
| ProductViews.OrderStore.MoveStock | pharmacy/pharmacy/product/views.py:126-141 | the loop over the order lines leaves the stock table that ApplyLines describes, with -1 for completing and +1 for cancelling |
| ProductViews.ApplyLines | pharmacy/pharmacy/product/views.py:126-141 | applying the order lines keeps the set of stocks: no stock is added or dropped |
| ProductViews.ApplyLinesEffect | pharmacy/pharmacy/product/views.py:126-128 | running the loop over the lines moves each stock by the total quantity its lines take, changes no other modelled column and adds or drops no stock |
| ProductViews.OrderedUnreferenced | pharmacy/pharmacy/product/views.py:126-128 | a stock no line refers to is taken from by nothing |
| ProductViews.UnreferencedStockUnchanged | pharmacy/pharmacy/product/views.py:122-148 | a PATCH leaves every stock that the order's lines do not refer to as it was |
| ProductViews.RestoreUndoesTake | pharmacy/pharmacy/product/views.py:139-141 | the cancelling loop undoes the completing loop exactly |
| ProductViews.CompleteThenCancelRestoresStock | pharmacy/pharmacy/product/views.py:122-141 | completing a pending order and then cancelling it (gate passed) both succeed, restore every stock and leave the order cancelled |
| ProductViews.CompletionsCommute | pharmacy/pharmacy/product/views.py:126-128 | completing two orders leaves the same stock table in either order |
| ProductViews.CompletionCanDriveStockNegative | pharmacy/pharmacy/product/views.py:122-128 | a batch of 1 with a pending line of 3 is completed and ends at -2: no floor on the decrement |
| ProductFilters.IsDigitString | pharmacy/pharmacy/product/filters.py:31 | a digit string is non-empty and holds no comma |
| ProductFilters.Select | pharmacy/pharmacy/product/filters.py:33 | the kept products are exactly the input products the predicate accepts, a sub-multiset of the input |
| ProductFilters.Split | pharmacy/pharmacy/product/filters.py:30 | splitting always yields at least one piece and no piece contains the separator |
| ProductFilters.JoinSplit | pharmacy/pharmacy/product/filters.py:30 | joining the pieces with the separator gives back the value |
| ProductFilters.SplitJoin | pharmacy/pharmacy/product/filters.py:30 | splitting a join of separator-free pieces gives back the pieces |
| ProductFilters.IdListAccepted | pharmacy/pharmacy/product/filters.py:29-32 | every piece is a non-empty digit string iff the value is digits and commas, starts and ends with a digit and has no two commas in a row |
| ProductFilters.IdListExamples | pharmacy/pharmacy/product/filters.py:29-32 | "", "1,,2" and "1," are refused; "12,7" is accepted |
| ProductFilters.FilterByIds | pharmacy/pharmacy/product/filters.py:29-46 | the value is accepted iff it is a well-formed id list; then the result holds exactly the input products whose company/distribution/formula id is one of the listed ids (a null key never matches), as a sub-multiset of the input |
| ProductFilters.Bucket | pharmacy/pharmacy/product/filters.py:53-71 | a batch is expired iff its expiry is before today, short-expired iff it lies in [today, today+180); an undated batch is neither and no batch is both |
| ProductFilters.ParseExpiration | pharmacy/pharmacy/product/filters.py:49-52 | a value is accepted iff it is one of the three expiry values, and `expired` names the expired bucket |
| ProductFilters.FilterExpiration | pharmacy/pharmacy/product/filters.py:48-80 | a value outside the expiry enum is refused; `expired` keeps exactly the products with an expired batch, `shortExpired` those with a short-expired batch, each as a sub-multiset of the input; the combined value lists exactly the products with either, each once per kind of batch it has for every time it is listed in the input |
| ProductFilters.ExpiredOrShortRows | pharmacy/pharmacy/product/filters.py:77-80 | the combined rows hold exactly the input products with an expired or a short-expired batch |
| ProductFilters.RowsOf | pharmacy/pharmacy/product/filters.py:56-80 | one product yields one row per kind of batch it has, and only itself |
| ProductFilters.ExpiredOrShortRowsCount | pharmacy/pharmacy/product/filters.py:77-80 | a product comes back from the combined value once per kind of batch it has, for each time the input lists it |
| ProductFilters.CombinedListsTwice | pharmacy/pharmacy/product/filters.py:56-80 | a product with an expired and a short-expired batch is listed twice by the combined value |
| ProductFilters.ExpirationUnion | pharmacy/pharmacy/product/filters.py:73-80 | the combined value lists exactly the products found in either of the other two results |
| ProductFilters.QtyPartition | pharmacy/pharmacy/product/filters.py:53-71 | the quantities of undated, expired, short-expired and later batches add up to the total, with no batch counted twice |
| ProductFilters.LowQtyTotal | pharmacy/pharmacy/product/filters.py:92-99 | the total is 0 when no batch is dated today or later, and never negative when no batch quantity is |
| ProductFilters.LowQtyTotalUnexpired | pharmacy/pharmacy/product/filters.py:92-99 | the low-quantity total is the short-expired plus later-dated quantity: expired and undated batches add nothing, and no batches give 0 |
| ProductFilters.FilterLowQty | pharmacy/pharmacy/product/filters.py:82-112 | a value outside the enum is refused; very-low and low keep exactly the products whose low-quantity total is below average × limit; any other listed value keeps every product |
| ProductFilters.VeryLowWithinLow | pharmacy/pharmacy/product/filters.py:101-110 | with the very-low limit at most the low limit and no negative average, every very-low product is a low product |
| ProductFilters.NegativeAverageBreaksNesting | pharmacy/pharmacy/product/filters.py:101-110 | with average -10 and a batch of -5 the product is very low but not low: the nesting needs non-negative averages |
| UserSerializers.Created | pharmacy/pharmacy/user/serializers.py:29-33 | creation is refused iff the password is missing or empty; otherwise the user gets the given id, username and password, every supplied e-mail, first name, last name, active and superuser value, and the user model's default for each one not supplied |
| UserSerializers.Create | pharmacy/pharmacy/user/serializers.py:29-33 | returns a fresh user whose row is the one Created describes, or Created's error |
| UserSerializers.Merge | pharmacy/pharmacy/user/serializers.py:35-52 | id and username never change; each of email, first name, last name, active and superuser takes the supplied value or keeps the old one; the password is reset iff a non-empty one is supplied |
| UserSerializers.MergeIdempotent | pharmacy/pharmacy/user/serializers.py:35-52 | applying the same update twice gives the same row as applying it once |
| UserSerializers.User.Update | pharmacy/pharmacy/user/serializers.py:35-52 | the user's row afterwards is Merge of the old row and the data |
| UserSerializers.User.SetPassword | pharmacy/pharmacy/user/serializers.py:48-49 | the stored password becomes the one given, other fields untouched |

## Left out

- Transactions, row locking and concurrent completion (`transaction.atomic`)
  are left out: the model is sequential. `CompletionsCommute` states only the
  sequential fact that the order of two completions does not matter.
- `OrderAPIView.post` is left out. The order-creation checks (stock on hand,
  discount bounds, totals) live in a serializer that is not part of this model.
- The final serializer save in `patch` (views.py:143-154) is taken to succeed,
  so its 400 error path is not modelled.
- The "Invalid current status" branch (views.py:109-112) cannot be reached: a
  stored status is one of the three datatype values.
- A missing stock behind an order line cannot happen, because the foreign key
  cascades. `OrderStore.Valid` states this, and `Adjust` treats such a line as
  a no-op.
- The ORM plumbing is left out: `select_related`, `prefetch_related`,
  ordering filters and pagination. A queryset is a sequence of products, and
  filters keep the input order.
- FilterExpiration: `distinct` is modelled through its effect on the
  annotated rows (one row per product for `expired` and `shortExpired`, one
  per kind of batch for the combined value). The order in which the database
  returns the duplicated rows is not modelled: the model puts them side by
  side.
- Saving a stock also refreshes its `entry_date` timestamp (an auto-now
  column), which can reorder the stock list that is sorted by newest entry.
  The stock model here has only quantity and expiry, so neither the timestamp
  nor that reordering is modelled.
- Before calling a filter method, the filter library skips it when the query
  value is empty. That library code is not part of this model. The model
  describes the filter methods as written, where "" is refused.
- Python's `str.isdigit` also accepts non-ASCII digits. The model accepts only
  '0'–'9'.
- The date source (`timezone.now()`, `date.today()`) and the deployment
  configuration are not modelled. They become the `today` parameter and the
  cancel flag parameter.
- The float threshold product `avg_qty * limit` in SQL is replaced by exact
  rational comparison. Floating-point rounding at the boundary is not modelled.
- `self.action` is modelled as a string. When it is None (an unsupported
  method), the non-admin branch applies, as it does for any other string.
- Password hashing and salting are not modelled. The stored password records
  only the raw value it was set from.
- UserSerializers.Created: `create_user`'s own checks and normalisation (empty
  username, e-mail normalisation) are not modelled, because that library code
  is not part of this model. The username is required by the serializer and
  is a precondition.
- The serializer-level defaults (`is_active` True, `is_superuser` False),
  which field validation may insert into the validated data before `update`
  runs, are not modelled. `Merge` takes the validated data as given.
- Token issuance, routing, the admin site, migrations and the generic CRUD
  viewsets are not modelled.
