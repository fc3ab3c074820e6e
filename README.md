# Chef'sBook core, modelled in Dafny

Chef'sBook is a recipe-sharing site with a React client and a Django REST server.
This project models the parts of it that have behaviour worth stating, and proves
properties of them:

- the server's notification fan-out and read state: push, the per-recipient
  list views, mark-read, and the serializers;
- the server's registration and profile serializers and the recipe author rule;
- the client's optimistic like, save, comment, rating and follow handlers, on the
  recipe card and on the post page;
- the home feed's list replacement and pagination, the following and followers
  lists with their in-flight unfollow set, and the own-recipes filter;
- the client stores: toasts, auth tokens, profile and sent notifications;
- the notification dropdown's deduplication, time buckets, transforms and icons;
- the payload builders of the send-notification, create-recipe and registration
  forms, and the image uploader's file check;
- the direct-message page: room setup, the socket's ready state, and guarded sending.

Network replies, clock readings, generated ids and the server's own validity
verdicts are arguments of the methods that consume them. Nothing here performs I/O.

Code whose source changes state step by step is a `class` with `modifies`
clauses: React state, stores, the server's tables. Source that only computes is
functions with lemmas. Handlers that hold a busy flag across a request are split
into `Begin…` and `Finish…` methods around it. A single pending slot keeps what
the handler's closure captured.

Files:

| file | module | source |
|---|---|---|
| `common.dfy` | `Common` | shared helpers: Option, JavaScript `trim` and Python `strip`, decimal rendering |
| `http.dfy` | `Http` | request outcomes and error bodies |
| `seqs.dfy` | `Seqs` | order-preserving filter |
| `form_data.dfy` | `FormData` | ordered form state, multipart bodies |
| `notification_model.dfy` | `NotificationModel` | `server/core/notifications/models.py` |
| `notification_serializers.dfy` | `NotificationSerializers` | `server/core/notifications/serializers.py` |
| `notification_views.dfy` | `NotificationViews` | `server/core/notifications/views.py` |
| `account_serializers.dfy` | `AccountSerializers` | `server/core/accounts/serializers.py` |
| `recipe_views.dfy` | `RecipeViews` | `server/core/Recipe/views.py` |
| `notification_dropdown.dfy` | `NotificationDropdown` | `client/src/components/NotificationDropdown.jsx` |
| `notification_store.dfy` | `NotificationStore` | `client/src/stores/notificationStore.js` |
| `toast_store.dfy` | `Toasts` | `client/src/stores/toastStore.js` |
| `auth_store.dfy` | `Auth` | `client/src/stores/authStore.js` |
| `profile_store.dfy` | `Profile` | `client/src/stores/profileStore.js` |
| `post_actions.dfy` | `PostActions` | the like/save/comment/rating transforms shared by `RecipeCard.jsx` and `ViewPost.jsx` |
| `recipe_card.dfy` | `RecipeCard` | `client/src/components/RecipeCard.jsx` |
| `view_post.dfy` | `ViewPost` | `client/src/pages/ViewPost.jsx` |
| `home_page.dfy` | `HomePage` | `client/src/pages/Home.jsx` |
| `relationships.dfy` | `Relationships` | the list operations of `Following.jsx` and `Followers.jsx` |
| `following.dfy` | `FollowingList` | `client/src/components/Following.jsx` |
| `followers.dfy` | `FollowersList` | `client/src/components/Followers.jsx` |
| `my_recipes.dfy` | `MyRecipes` | `client/src/components/MyRecipes.jsx` |
| `notifications_page.dfy` | `NotificationsPage` | `client/src/pages/Notifications.jsx` |
| `create_page.dfy` | `CreatePage` | `client/src/pages/Create.jsx` |
| `register_page.dfy` | `RegisterPage` | `client/src/pages/Register2.jsx` |
| `cloudinary_uploader.dfy` | `CloudinaryUploader` | `client/src/components/CloudinaryUploader.jsx` |
| `chat_session.dfy` | `ChatSession` | `client/src/pages/Msg.jsx` |

## Model

| member | source | states |
|---|---|---|
| NotificationModel.ParseType | server/core/notifications/models.py:4-8 | the stored key is one of global, followers, personal, and parsing it gives that type back; any other text is rejected |
| NotificationModel.ParseTypeRoundTrip | server/core/notifications/models.py:4-8 | the three keys are distinct and parse back to their own type |
| NotificationModel.NewRow | server/core/notifications/models.py:12-16 | a new row is unread and keeps every given field; the type defaults to personal when none is given |
| NotificationModel.Describe | server/core/notifications/models.py:18-19 | the text is the stored type, " - ", then the message; the part before the separator parses back to the row's type |
| NotificationModel.DeleteUserSpec | server/core/notifications/models.py:10-11 | after deleting a user no row mentions them; one row survives per row they did not receive, and each surviving row is a row of the table or one with its sender (the deleted user) nulled |
| NotificationModel.DeleteUserKeepsOthers | server/core/notifications/models.py:10-11 | a row neither sent nor received by the deleted user survives unchanged |
| NotificationSerializers.Mini | server/core/notifications/serializers.py:6-9 | the mini user carries exactly id, username and profile picture |
| NotificationSerializers.FindUser | server/core/notifications/serializers.py:6-9 | the lookup finds a user with that id when one exists, and None only when none does |
| NotificationSerializers.SerializeReceived | server/core/notifications/serializers.py:12-17 | a received notification shows id, sender, message, url, type, creation time and read flag from its row |
| NotificationSerializers.ReceivedHidesRecipient | server/core/notifications/serializers.py:12-17 | two rows that differ only in recipient serialize identically, so the recipient is never exposed |
| NotificationSerializers.RecipientOf | server/core/notifications/serializers.py:29-33 | the recipient field is the mini recipient for personal rows and None for every other type |
| NotificationSerializers.RecipientCountBounds | server/core/notifications/serializers.py:35-45 | a personal row counts 1; a broadcast row counts the rows sharing its sender, message, type and creation time, at least 1 when it is in the table and never more than the table |
| NotificationSerializers.SerializeSent | server/core/notifications/serializers.py:20-45 | a sent notification adds the recipient field and recipient count to the received fields |
| NotificationViews.SelectAudience | server/core/notifications/views.py:13-40 | the checks run in the view's order: missing message or type, then global, followers, personal (no recipient, unknown recipient), then unknown type |
| NotificationViews.AudienceSpec | server/core/notifications/views.py:20-40 | missing fields and an unknown type give 400; global is exactly everyone but the sender; followers is exactly the users who follow the sender; personal needs a recipient (400) that exists (404) and is then that one user |
| NotificationViews.NotificationService.Push | server/core/notifications/views.py:13-52 | a refused push creates nothing; otherwise one row per recipient, in audience order, with the sender, message, url and type, and a 201 whose items are those rows serialized |
| NotificationViews.PushItemsFromSender | server/core/notifications/views.py:42-52 | every created item names the pushing user as its sender |
| NotificationViews.SplitStampsCountOne | server/core/notifications/serializers.py:35-44 | as written: when each insert of a push reads the clock anew and the readings differ, every broadcast row's recipient count is 1 |
| NotificationViews.OnlySelfCountsOne | server/core/notifications/serializers.py:35-44 | a row that shares sender, message, type and stamp with no other row counts exactly 1 |
| NotificationViews.SharedStampRows | server/core/notifications/views.py:42-52 | corrected: the rows of one push all carry the push's single creation stamp |
| NotificationViews.SharedStampCountsAudience | server/core/notifications/serializers.py:35-44 | corrected: with one stamp per push, each broadcast row's recipient count equals the number of recipients |
| NotificationViews.InsertSpec | server/core/notifications/views.py:59-61 | inserting into a newest-first list keeps it newest-first and adds exactly that row |
| NotificationViews.NewestSpec | server/core/notifications/views.py:59-61 | ordering by creation time, descending, gives a newest-first permutation of the rows |
| NotificationViews.InboxRows | server/core/notifications/views.py:59-97 | a list view returns exactly the requester's rows, of the view's type when it has one, newest first, each once |
| NotificationViews.SentRows | server/core/notifications/views.py:104-106 | the sent view returns exactly the requester's sent rows, newest first, each once |
| NotificationViews.InboxRowsMembers | server/core/notifications/views.py:59-97 | a row is in a received list exactly when it is in the table, addressed to the requester and of the view's type |
| NotificationViews.SentRowsMembers | server/core/notifications/views.py:104-106 | a row is in the sent list exactly when it is in the table and sent by the requester |
| NotificationViews.ListReceivedSpec | server/core/notifications/views.py:59-97 | the received response is newest first; every item serializes one of the requester's rows of the view's type, and every such row appears |
| NotificationViews.ListSentSpec | server/core/notifications/views.py:104-106 | the sent response is newest first; every item serializes one of the requester's sent rows with its recipient and count, and every such row appears |
| NotificationViews.FindOwn | server/core/notifications/views.py:111-116 | the lookup succeeds exactly when a row with that id belongs to the requester, and returns its index |
| NotificationViews.MarkOneUnreadCount | server/core/notifications/views.py:117-123 | marking one own row read lowers the requester's unread count by one if it was unread, and otherwise leaves it |
| NotificationViews.NotificationService.MarkRead | server/core/notifications/views.py:111-123 | another user's or a missing id gives 404 and changes nothing; otherwise only that row becomes read and the reply carries it and the remaining unread count |
| NotificationViews.MarkAllRows | server/core/notifications/views.py:128-131 | every row of the requester becomes read; the table keeps its length and order |
| NotificationViews.MarkAllSpec | server/core/notifications/views.py:128-131 | after mark-all the requester has no unread row, and other users' rows are untouched |
| NotificationViews.NotificationService.MarkAllRead | server/core/notifications/views.py:128-131 | the table becomes MarkAllRows of itself and the reply is the fixed message |
| AccountSerializers.Validate | server/core/accounts/serializers.py:33-36 | differing passwords give an error keyed "password" with the fixed text; equal ones pass the data through |
| AccountSerializers.CreateUserArgs | server/core/accounts/serializers.py:38-42 | the user is created from the data without password2 and image, and with everything else |
| AccountSerializers.ImageToSet | server/core/accounts/serializers.py:41-45 | the image is set afterwards exactly when the data holds a non-empty one |
| AccountSerializers.Create | server/core/accounts/serializers.py:38-48 | success makes the account from CreateUserArgs and saves the image only when given; a missing password2 or a failing user creation becomes a ValidationError with the error text |
| AccountSerializers.GetAge | server/core/accounts/serializers.py:71-76 | no date of birth gives None; otherwise the year difference, less one exactly when today's month and day come before the birthday's |
| AccountSerializers.GetAgeMeaning | server/core/accounts/serializers.py:71-76 | the n-th birthday falls on or before today exactly when n is at most the age, so the age is non-negative exactly when the birth date is not after today |
| AccountSerializers.FullName | server/core/accounts/serializers.py:78-79 | the full name is first and last name joined by a space, with surrounding whitespace stripped |
| AccountSerializers.FullNameSpec | server/core/accounts/serializers.py:78-79 | the full name is "" exactly when both names are blank (whitespace only); it never starts or ends with whitespace; two names without edge whitespace are joined by one space unchanged |
| AccountSerializers.UpdateProfile | server/core/accounts/serializers.py:57-65 | an update changes only writable profile fields, and never id, email, date_joined or last_login |
| AccountSerializers.UpdateProfileSpec | server/core/accounts/serializers.py:63-65 | read-only fields keep their values whatever the data holds; writable fields take the submitted value |
| RecipeViews.Permitted | server/core/Recipe/views.py:9-38 | list and detail allow anyone; create, update and delete require an authenticated user |
| RecipeViews.AuthorGate | server/core/Recipe/views.py:24-43 | an update or delete is checked in order: not authenticated (401), unknown recipe (404), invalid data (400), not the author (403) |
| RecipeViews.AuthorGateSpec | server/core/Recipe/views.py:29-43 | the gate passes exactly for an authenticated author of an existing recipe, and then points at that recipe |
| RecipeViews.RecipeService.Create | server/core/Recipe/views.py:11-17 | an authenticated create with valid data stores a new recipe whose author is the requester; otherwise nothing is stored |
| RecipeViews.RecipeService.Update | server/core/Recipe/views.py:24-33 | a non-author gets the permission error and nothing is saved; the author's valid update replaces only that recipe's data |
| RecipeViews.RecipeService.Delete | server/core/Recipe/views.py:35-43 | a non-author gets the permission error and nothing is deleted; the author's delete removes exactly that recipe |
| RecipeViews.RemoveKeepsOthers | server/core/Recipe/views.py:40-43 | deleting one recipe keeps every other one, in order |
| NotificationDropdown.Deduplicate | client/src/components/NotificationDropdown.jsx:27-44 | the loop with its seen set computes the deduplicated list |
| NotificationDropdown.DedupKeepsFirsts | client/src/components/NotificationDropdown.jsx:31-37 | among global and follow items exactly the first with each message-url-type signature is kept |
| NotificationDropdown.DedupSubsequence | client/src/components/NotificationDropdown.jsx:27-44 | the output is a subsequence of the input in its original order, so never longer |
| NotificationDropdown.DedupKeepsOtherTypes | client/src/components/NotificationDropdown.jsx:38-40 | every item of any other type is kept, duplicates included |
| NotificationDropdown.DedupIdempotent | client/src/components/NotificationDropdown.jsx:27-44 | deduplicating twice equals deduplicating once |
| NotificationDropdown.FormatTimeMeaning | client/src/components/NotificationDropdown.jsx:112-121 | the bucket is seconds, minutes, hours or days by the thresholds 60, 3600 and 86400, and the number shown is the whole count of that unit |
| NotificationDropdown.Transform | client/src/components/NotificationDropdown.jsx:98-110 | id, message and url are kept; type, read flag and recipient count are renamed; user and avatar come from the sender; a missing sender throws |
| NotificationDropdown.TransformAll | client/src/components/NotificationDropdown.jsx:98-110 | the list maps item by item, and fails exactly when some item lacks a sender |
| NotificationDropdown.Icon | client/src/components/NotificationDropdown.jsx:123-135 | a type gets the bell exactly when it is none of the eight known types; follow and personal share the person glyph |
| NotificationDropdown.FetchAllCounts | client/src/components/NotificationDropdown.jsx:20-25 | each tab's count is the length of that tab's list |
| NotificationStore.AsSentByYouSpec | client/src/stores/notificationStore.js:22-30 | the rewrite keeps length, order and every field but the sender, which becomes "You" with the fixed picture; applying it twice changes nothing more |
| NotificationStore.NotificationStore.constructor | client/src/stores/notificationStore.js:6-8 | the store starts with no notifications, not loading, no error |
| NotificationStore.NotificationStore.BeginFetch | client/src/stores/notificationStore.js:10-12 | a fetch starts with loading on and error cleared, list unchanged |
| NotificationStore.NotificationStore.FinishFetch | client/src/stores/notificationStore.js:22-34 | success installs the rewritten results; failure sets the error message or "Failed to fetch" and keeps the list; loading ends either way |
| Toasts.RemovalSpec | client/src/stores/toastStore.js:22-26 | removal drops every toast with the id, keeps all others in order, and distributes over concatenation |
| Toasts.RemoveAbsent | client/src/stores/toastStore.js:22-26 | removing an id no toast carries leaves the queue unchanged |
| Toasts.AddThenRemove | client/src/stores/toastStore.js:6-26 | adding a toast with a fresh id and removing that id restores the queue |
| Toasts.ToastStore.AddToast | client/src/stores/toastStore.js:6-19 | exactly one toast is appended, with type "success" and duration 3000 by default; earlier toasts are unchanged and its id is returned |
| Toasts.ToastStore.RemoveToast | client/src/stores/toastStore.js:22-26 | the queue loses exactly the toasts with that id |
| Toasts.ToastStore.ClearAllToasts | client/src/stores/toastStore.js:28-30 | the queue becomes empty |
| Toasts.ToastStore.ShowSuccess | client/src/stores/toastStore.js:33 | appends a toast of type success |
| Toasts.ToastStore.ShowError | client/src/stores/toastStore.js:34 | appends a toast of type error |
| Toasts.ToastStore.ShowWarning | client/src/stores/toastStore.js:35 | appends a toast of type warning |
| Toasts.ToastStore.ShowInfo | client/src/stores/toastStore.js:36 | appends a toast of type info |
| Auth.AuthStore.constructor | client/src/stores/authStore.js:7-8 | both tokens start null |
| Auth.AuthStore.SetTokens | client/src/stores/authStore.js:10-12 | both tokens become exactly the given pair |
| Auth.AuthStore.ClearTokens | client/src/stores/authStore.js:14-16 | both tokens become null |
| Auth.AuthStore.Rehydrate | client/src/stores/authStore.js:20-24 | only the two tokens are persisted, and a rehydrated store persists the same snapshot |
| Profile.FetchErrorMessage | client/src/stores/profileStore.js:35-51 | 401 and 403 give the session-expired text; another response gives its detail when it has one, else the default; with no response the error's message when non-empty, else the default; never empty |
| Profile.UpdateBodySpec | client/src/stores/profileStore.js:73-78 | the update body holds exactly the entries whose value is not null, undefined or "", in order |
| Profile.ProfileStore.BeginFetch | client/src/stores/profileStore.js:15-23 | without a token only the no-token error is set and nothing is requested; otherwise loading starts with the error cleared |
| Profile.ProfileStore.FinishFetch | client/src/stores/profileStore.js:23-51 | success installs the user; 401 or 403 clears both tokens and the user; every failure sets FetchErrorMessage; loading ends |
| Profile.ProfileStore.UpdateProfile | client/src/stores/profileStore.js:56-110 | no token or no user only sets the matching error and sends nothing, leaving the tokens alone; otherwise the filtered body is sent; a failed patch changes nothing else; after a successful patch the refetch installs the user, or sets FetchErrorMessage and, on 401 or 403, clears the tokens and the user |
| Profile.ProfileStore.ClearProfile | client/src/stores/profileStore.js:112-115 | user and error become null |
| Profile.ProfileStore.Rehydrate | client/src/stores/profileStore.js:119 | only the user is persisted |
| PostActions.ToggleLikeSpec | client/src/components/RecipeCard.jsx:153-183 | a prior like by the user removes all of the user's likes and keeps the rest in order; otherwise exactly one like by the user is appended |
| PostActions.ToggleLikeTwice | client/src/components/RecipeCard.jsx:153-183 | liking and then unliking from a not-liked state restores the original likes |
| PostActions.ReconcileLikeSpec | client/src/components/RecipeCard.jsx:211-246 | a likes array in the reply wins; else a liked flag decides whether the user's like is present; else the optimistic list stands |
| PostActions.SaveOptimistic | client/src/components/RecipeCard.jsx:284-293 | the saved flag flips and nothing else changes |
| PostActions.SaveFinal | client/src/components/RecipeCard.jsx:326-331 | the final flag is the reply's saved value when defined, else the flipped value |
| PostActions.SaveSpec | client/src/pages/ViewPost.jsx:195-239 | without a saved value in the reply the final post is the optimistic one; flipping a defined flag twice restores the post |
| PostActions.RatingFinal | client/src/pages/ViewPost.jsx:356-363 | the average becomes the reply's value, or the selected rating when the reply's is falsy |
| PostActions.CommentOptimistic | client/src/pages/ViewPost.jsx:268-289 | exactly one temporary comment by the user, with the draft text, is appended |
| PostActions.CommentFinal | client/src/pages/ViewPost.jsx:306-311 | on success the comments become the original comments plus the server's comment |
| PostActions.CommentFinalReplacesOptimistic | client/src/pages/ViewPost.jsx:306-311 | the final list equals the optimistic list with its temporary comment replaced by the server's |
| PostActions.IndexOf | client/src/components/RecipeCard.jsx:523-526 | the index returned is the first occurrence of the pattern; None means it occurs nowhere |
| PostActions.FormatCookTimeSpec | client/src/components/RecipeCard.jsx:523-526 | a missing time gives "30 min"; otherwise the first "00:" is removed and " min" appended |
| RecipeCard.FollowerCountAfter | client/src/components/RecipeCard.jsx:89-113 | following adds 1 to the follower count and unfollowing subtracts 1 |
| RecipeCard.FollowThenUnfollow | client/src/components/RecipeCard.jsx:89-113 | a follow followed by an unfollow restores the count |
| RecipeCard.BlankDraftIff | client/src/components/RecipeCard.jsx:419-424 | a draft is refused exactly when it is all whitespace |
| RecipeCard.RatingGuardIgnoresInFlight | client/src/components/RecipeCard.jsx:350-360 | a rating already in flight does not by itself block another |
| RecipeCard.Card.ChefProfileLoaded | client/src/components/RecipeCard.jsx:44-65 | the chef profile is stored and isFollowing says whether the current user is among the chef's followers |
| RecipeCard.Card.BeginLike | client/src/components/RecipeCard.jsx:133-183 | a click while a like is in flight, without a token or without a user changes nothing; otherwise the recipe becomes the toggled one and the prior recipe is kept |
| RecipeCard.Card.FinishLike | client/src/components/RecipeCard.jsx:211-262 | success installs ReconcileLike of the reply; failure restores exactly the pre-click recipe (and clears the tokens on 401); the flag drops |
| RecipeCard.Card.BeginSave | client/src/components/RecipeCard.jsx:264-293 | guards as for likes; otherwise the flag flips optimistically |
| RecipeCard.Card.FinishSave | client/src/components/RecipeCard.jsx:326-348 | success installs SaveFinal; failure restores the recipe; the flag drops |
| RecipeCard.Card.BeginComment | client/src/components/RecipeCard.jsx:418-458 | a blank draft or missing token or user changes nothing; otherwise the optimistic comment is appended and the draft cleared |
| RecipeCard.Card.FinishComment | client/src/components/RecipeCard.jsx:476-500 | success installs CommentFinal; failure restores the recipe and the draft |
| RecipeCard.Card.Rate | client/src/components/RecipeCard.jsx:350-416 | no token or no selection sends nothing; success installs RatingFinal and closes the modal with the selection reset |
| RecipeCard.Card.Follow | client/src/components/RecipeCard.jsx:67-127 | no token sends nothing; success flips isFollowing and moves the count by FollowerCountAfter; failure changes neither |
| RecipeCard.Card.CloseRatingModal | client/src/components/RecipeCard.jsx:518-521 | the modal hides and the selection resets to 0 |
| ViewPost.PostPage.Loaded | client/src/pages/ViewPost.jsx:38-56 | a fetched post is installed, a failure sets the error text; loading ends |
| ViewPost.PostPage.BeginLike | client/src/pages/ViewPost.jsx:59-106 | guarded as on the card; otherwise the post becomes ToggleLike of it |
| ViewPost.PostPage.FinishLike | client/src/pages/ViewPost.jsx:135-176 | success installs ReconcileLike; failure restores the pre-click post |
| ViewPost.PostPage.BeginSave | client/src/pages/ViewPost.jsx:179-200 | guarded; otherwise the saved flag flips |
| ViewPost.PostPage.FinishSave | client/src/pages/ViewPost.jsx:231-249 | success installs SaveFinal; failure restores the post |
| ViewPost.PostPage.BeginComment | client/src/pages/ViewPost.jsx:252-289 | a blank draft is refused; otherwise the optimistic comment is appended |
| ViewPost.PostPage.FinishComment | client/src/pages/ViewPost.jsx:306-325 | success installs CommentFinal; failure restores post and draft |
| ViewPost.PostPage.Rate | client/src/pages/ViewPost.jsx:328-375 | refused only without a token or a selection; success installs RatingFinal, closes the modal and resets the selection |
| ViewPost.PostPage.CloseRatingModal | client/src/pages/ViewPost.jsx:390-393 | the modal hides and the selection resets to 0 |
| HomePage.Normalize | client/src/pages/Home.jsx:50-60 | every result keeps its fields and order, with is_saved defaulting to false |
| HomePage.ReplaceByIdSpec | client/src/pages/Home.jsx:72-75 | every recipe with the update's id is replaced; length, order and all other recipes are unchanged; replacing twice equals once |
| HomePage.ReplaceByIdLastWins | client/src/pages/Home.jsx:72-75 | two updates of the same id leave the later one |
| HomePage.Home.FinishLoad | client/src/pages/Home.jsx:36-67 | success installs the normalised results and the pagination; failure sets the error; loading ends |
| HomePage.Home.RecipeUpdated | client/src/pages/Home.jsx:72-75 | the list becomes ReplaceById of itself |
| HomePage.Home.LoadMore | client/src/pages/Home.jsx:77-93 | no next page requests nothing; success appends the new results unnormalised and replaces the pagination; failure changes neither |
| Relationships.FetchedList | client/src/components/Following.jsx:21-29 | an array body is the list; a non-array body or a failed request gives the empty list |
| Relationships.WithoutSpec | client/src/components/Following.jsx:46 | removal keeps, in order, exactly the relationships whose chosen side differs from the id, and repeating it changes nothing |
| FollowingList.FollowingList.Load | client/src/components/Following.jsx:14-37 | without a token nothing is requested and loading stays on; otherwise the list is FetchedList of the reply and loading ends |
| FollowingList.FollowingList.BeginUnfollow | client/src/components/Following.jsx:39-40 | the id joins the in-flight set |
| FollowingList.FollowingList.FinishUnfollow | client/src/components/Following.jsx:45-55 | success removes every relationship whose following is the id; failure keeps the list; the id leaves the set and other ids stay |
| FollowersList.FollowersList.Load | client/src/components/Followers.jsx:14-37 | as for the following list |
| FollowersList.FollowersList.BeginUnfollow | client/src/components/Followers.jsx:39-40 | the id joins the in-flight set |
| FollowersList.FollowersList.FinishUnfollow | client/src/components/Followers.jsx:45-55 | success removes every relationship whose follower is the id; failure keeps the list; the id leaves the set and other ids stay |
| MyRecipes.MyPostsSpec | client/src/components/MyRecipes.jsx:30 | the owner filter keeps the fetched order, keeps only the profile user's posts, and keeps every one of them |
| MyRecipes.RenderSpec | client/src/components/MyRecipes.jsx:32-46 | the empty-state text shows exactly when loading is over and no fetched post is the user's |
| MyRecipes.MyRecipesView.Load | client/src/components/MyRecipes.jsx:12-28 | without a token nothing is requested; a reply replaces the posts, a failure keeps them; loading ends |
| NotificationsPage.Edit | client/src/pages/Notifications.jsx:24-29 | editing a field changes that field and no other |
| NotificationsPage.PayloadClean | client/src/pages/Notifications.jsx:51-59 | the sent message is non-empty and trimmed, the type is unchanged, and the url key is present exactly when the link is not blank, trimmed |
| NotificationsPage.FailureMessage | client/src/pages/Notifications.jsx:75 | the error is the reply's message when non-empty, else "Failed to send notification" |
| NotificationsPage.NotificationsPageState.InputChange | client/src/pages/Notifications.jsx:24-36 | only the named field changes and the success and error flags are cleared |
| NotificationsPage.NotificationsPageState.Submit | client/src/pages/Notifications.jsx:38-80 | a blank message sets "Message is required" and sends nothing; otherwise exactly PayloadOf the form is sent; success resets the form to global, failure keeps it with FailureMessage; loading ends |
| CreatePage.BuildBody | client/src/pages/Create.jsx:108-115 | the loop builds the body entry by entry as BodyOf the form |
| CreatePage.BodyFields | client/src/pages/Create.jsx:109-115 | every non-image field reaches the body with its value, or "" when falsy |
| CreatePage.BodyImage | client/src/pages/Create.jsx:110-113 | the body has an image exactly when the form holds a file there, and then it is that file |
| CreatePage.Options | client/src/pages/Create.jsx:43-47 | one option per category, in order, each with value and id the category's id and label its name |
| CreatePage.CreatePageState.CategoriesFetched | client/src/pages/Create.jsx:34-53 | a reply replaces the options by Options of the categories, a failure keeps them; the loading flag drops either way and the form is untouched |
| CreatePage.CreatePageState.CreateCategory | client/src/pages/Create.jsx:56-85 | a created category's option is appended, selected, and its id becomes category_id; on failure only the loading flag changes |
| CreatePage.CreatePageState.CategoryChange | client/src/pages/Create.jsx:87-93 | the selection is stored and category_id becomes its value, or "" when cleared |
| CreatePage.CreatePageState.Change | client/src/pages/Create.jsx:95-104 | the image input with files stores the first file and its preview; any other change sets the named field |
| CreatePage.CreatePageState.Submit | client/src/pages/Create.jsx:106-154 | the body sent is BodyOf the form; success resets form, selection and preview; failure keeps them |
| RegisterPage.RegisterForm.Change | client/src/pages/Register2.jsx:23-39 | choosing a picture sets both the preview URL and the file and nothing else; any other input sets only the named field |
| RegisterPage.RegisterForm.Submit | client/src/pages/Register2.jsx:41-61 | mismatched passwords send nothing; otherwise the six required fields come first, username and dob only when non-empty, the image only when a file was chosen, and never bio |
| RegisterPage.BodyUsername | client/src/pages/Register2.jsx:49-57 | the required parts stay first and username is present exactly when non-empty |
| RegisterPage.BodyDob | client/src/pages/Register2.jsx:58 | dob is present exactly when non-empty, with its value |
| RegisterPage.BodyImage | client/src/pages/Register2.jsx:59-61 | image is present exactly when a file was chosen, and then holds that file |
| RegisterPage.BodyNoBio | client/src/pages/Register2.jsx:50-61 | no part of the body is keyed bio |
| CloudinaryUploader.Check | client/src/components/CloudinaryUploader.jsx:38-53 | no file does nothing; a type not starting with "image/" is refused first, then a size over 10 MiB; everything else is uploaded |
| CloudinaryUploader.SizeBoundary | client/src/components/CloudinaryUploader.jsx:46-49 | an image of exactly 10 MiB is accepted and one byte more is refused |
| CloudinaryUploader.Uploader.Select | client/src/components/CloudinaryUploader.jsx:38-53 | a file that passes Check starts exactly one upload and sets the uploading flag; any other selection changes nothing |
| CloudinaryUploader.Uploader.Finish | client/src/components/CloudinaryUploader.jsx:9-35 | the callback gets the secure URL only when the response is ok; the uploading flag drops either way |
| CloudinaryUploader.Uploader.Remove | client/src/components/CloudinaryUploader.jsx:55-57 | the callback receives null |
| ChatSession.SendFrame | client/src/pages/Msg.jsx:96-101 | a frame is sent exactly when the trimmed draft is non-empty and a stored socket is open, and it carries the untrimmed draft |
| ChatSession.BlankDraftNeverSent | client/src/pages/Msg.jsx:97-98 | a whitespace-only draft is never sent |
| ChatSession.Socket.Close | client/src/pages/Msg.jsx:37-39 | a closed socket is no longer open |
| ChatSession.Chat.UsersFetched | client/src/pages/Msg.jsx:14-27 | a reply replaces the user list, a failure keeps it; selection, room, messages, draft and socket are untouched |
| ChatSession.Chat.SelectUser | client/src/pages/Msg.jsx:31-93 | selection, empty list and null room come first; a stored socket is closed before the room request for user2_id; the room name is the reply's; history replaces the list before a new socket is stored; a failure leaves the old, closed socket stored |
| ChatSession.Chat.Deliver | client/src/pages/Msg.jsx:74-77 | each frame is appended; the list grows by one and earlier messages stay, after the history |
| ChatSession.Chat.SetInput | client/src/pages/Msg.jsx:162 | the draft becomes the typed value and nothing else changes |
| ChatSession.Chat.Send | client/src/pages/Msg.jsx:96-102 | exactly the frame SendFrame allows is sent and the draft cleared; otherwise nothing is sent and the draft kept |

## Left out

- Network, sockets and storage: HTTP requests, the WebSocket transport (open, error and close events), the image-hosting POST and the persistence layer. Their results are arguments, and each store's persisted part is a `Persist` function.
- Concurrency: overlapping runs of a handler (two chat selections, two ratings) can interleave in the source. Each handler is modelled as one sequential step, or two around its request.
- Generated ids and clocks: `Date.now()` ids, timestamps and `new Date()` are parameters. Toast auto-removal timers are not modelled.
- Toasts and alerts raised by the card, post and form handlers are UI feedback and are not modelled. The token clearing on 401 is modelled.
- Date parsing, `toLocaleDateString` and `toFixed` rendering: times are whole seconds, ratings are reals.
- JSON null versus undefined: both are `None`, and a JSON boolean that may be null is an `Option<bool>` read by truthiness.
- Django machinery: serializer field validation and the model field requirements behind it are a `valid` argument. Password strength validators, DRF pagination, querysets' database ordering of ties, and the 255-character column limit (stated by `FitsColumns`, not enforced) are not modelled.
- NotificationViews.NotificationService.Push: takes one clock reading per row, which also covers the corrected single-stamp push when the clock is constant.
- The Django `Account` model and the chat server's room and history endpoints are not part of this model.
- Home.jsx with a missing `results` array, and the other pages' rendering, are not modelled.
- NotificationSerializers.RecipientOf: a personal row whose recipient is null gives None here, where `UserMiniSerializer(None).data` gives an empty mini-user. A push never creates such a row.
- RecipeViews.RecipeService.Update: `data` stands for the validated field values after DRF merges a PATCH's partial body into the recipe. The merge itself is not modelled.
- RecipeCard.Card.Follow: the unfollow call passes its headers as a third argument to `axios.delete`, which ignores it, so the request goes out without an Authorization header. The request's outcome is a parameter here, so the model does not show this.
- NotificationsPage.FailureMessage: the push view's refusals carry their text under `error` (server/core/notifications/views.py:21-40), not `message`. Against that server every failure therefore shows "Failed to send notification". The model follows the client.
- ChatSession.Chat.SelectUser: a room name missing from the reply is modelled as None. A history body that is not an array is not modelled.

## Findings

| source | as written | input that shows it | evidently intended | confidence | as-written member | corrected member |
|---|---|---|---|---|---|---|
| server/core/notifications/serializers.py:35-44 | the recipient count of a global or followers notification counts rows with equal sender, message, type and `created_at`, but each row of a push gets its own `auto_now_add` stamp when it is saved (server/core/notifications/views.py:42-52) | a global push to two users whose two inserts get different stamps: each row counts 1 | the count is the number of users the push reached | medium, not executed | NotificationViews.SplitStampsCountOne | NotificationViews.SharedStampCountsAudience |
