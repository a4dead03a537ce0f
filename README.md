# tenkiru-webapp, modelled in Dafny

tenkiru-webapp suggests what to wear for the day's weather. Its Go backend holds users, clothing items, outfit posts and fashion recommendations in in-memory repositories. A recommendation service picks items from a user's wardrobe by temperature band and weather, and use cases guard creation, update, liking and deletion. Its React frontend keeps the wardrobe, the outfit posts, the signed-in user and the favourite locations in controller state, backed by a mock user store. Its views hold small rule tables: icons, colour bands, clothing advice, form validation, tag parsing and the one-item-per-group outfit builder.

This project models those parts, one Dafny module per source file:

- Backend entities and the recommendation service are datatypes and functions. The loops of the service are methods proved against the functions that specify them.
- The four repositories are classes over a `map` keyed by ID. Each keeps the invariant that every key is its value's ID. The use cases are classes over them.
- The frontend controllers, the mock user store and the stateful views are classes whose fields their methods replace. The outcome of each awaited backend call is an input: `Resolved(value)` or `Rejected(thrown)`. `thrown` is either an `Error` with a message or some other value, for which the code shows a fallback text.
- The view rules are functions, with lemmas that tie them to what the views promise.

Several properties say the code cannot do what its names suggest:

- `CreateClothingItem` and `CreateOutfitPost` can never succeed. The item or post they build always fails its own validation.
- `GenerateRecommendation` returns at most one item, because every converted item gets ID 0 before duplicates are removed.
- A repository's `prefix_{len+1}` IDs can overwrite an existing entry once an entry has been deleted.
- The posts page's "フィルターをクリア" button sends the empty patch `{}`, which changes no filter.

These are stated and proved as properties of the code as written.

## Model

| member | source | states |
|---|---|---|
| ClothingEntity.Validate | backend/internal/domain/entities/clothing.go:76-93 | no error iff user ID, name, type, color and category are all non-empty; each message appears exactly when its field is the first empty one in that order |
| ClothingEntity.NewClothingItem | backend/internal/domain/entities/clothing.go:34-59 | succeeds iff the five fields are non-empty; the result passes `Validate`, carries the arguments, and has empty ID, brand and image URL and warmth level 0; a failure reports the message `Validate` gives for the same fields |
| ClothingEntity.IsValidCategory | backend/internal/domain/entities/clothing.go:25-73 | true iff the category is one of トップス, ボトムス, アウター, シューズ, アクセサリー |
| ClothingEntity.ValidateIgnoresCategoryAndWarmth | backend/internal/domain/entities/clothing.go:17-93 | a valid item stays valid under any non-empty category and any warmth level |
| ClothingEntity.ValidateAcceptsUnlistedCategory | backend/internal/domain/entities/clothing.go:17-93 | an item with the unlisted category 冬服 and warmth level 99 passes `Validate` although `IsValidCategory` rejects it |
| UserEntity.Validate | backend/internal/domain/entities/user.go:63-74 | no error iff name, email and password are non-empty; each message appears exactly when its field is the first empty one |
| UserEntity.NewUser | backend/internal/domain/entities/user.go:30-47 | succeeds iff name, email and password are non-empty; the result passes `Validate`, carries them, has no ID, preferences or age; a failure reports `Validate`'s message |
| UserEntity.UpdatePreferences | backend/internal/domain/entities/user.go:50-55 | the preferences become a record holding exactly the given styles and colours with every other preference field empty; no other field of the user changes |
| UserEntity.UpdatePreferencesKeepsValidity | backend/internal/domain/entities/user.go:50-74 | updating preferences changes neither `Validate`'s verdict nor `IsValidAge` |
| UserEntity.NewUserAgeValid | backend/internal/domain/entities/user.go:58-60 | a user built by the constructor, at age 0, passes the age check of 0 to 150 |
| FashionEntity.Validate | backend/internal/domain/entities/fashion.go:87-95 | no error iff the user ID is non-empty and there is at least one item; the user ID is checked first |
| FashionEntity.ValidateIgnoresCounters | backend/internal/domain/entities/fashion.go:87-95 | the verdict does not depend on likes, temperature or tags |
| FashionEntity.IsValidStyle | backend/internal/domain/entities/fashion.go:126-145 | true iff the style is casual, formal or sporty |
| FashionService.TemperatureBands | backend/internal/domain/services/fashion_recommendation.go:16-30 | exactly one band applies: ≤0 gives 冬服/防寒具, ≤10 秋冬服/ジャケット, ≤20 春秋服/カーディガン, ≤25 春夏服, otherwise 夏服/Tシャツ, each iff its interval |
| FashionService.ConditionRules | backend/internal/domain/services/fashion_recommendation.go:32-42 | 雨 adds レインコート/長靴, 雪 スノーブーツ/手袋, 晴れ サングラス/帽子, each iff that condition; any other condition adds nothing |
| FashionService.WindAndHumidityRules | backend/internal/domain/services/fashion_recommendation.go:44-50 | the last selected category is 通気性 iff humidity exceeds 70; otherwise it is ウインドブレーカー iff wind exceeds 10 |
| FashionService.ByCategoryMembers | backend/internal/domain/services/fashion_recommendation.go:55-63 | the filtered list holds exactly the input items of that category |
| FashionService.GatherMembers | backend/internal/domain/services/fashion_recommendation.go:52-63 | the gathered list holds exactly the input items whose category is selected |
| FashionService.Dedup | backend/internal/domain/services/fashion_recommendation.go:65-77 | every kept item comes from the input and no ID of the input is lost |
| FashionService.DedupDistinct | backend/internal/domain/services/fashion_recommendation.go:65-77 | the kept IDs are pairwise distinct |
| FashionService.DedupKeepsFirst | backend/internal/domain/services/fashion_recommendation.go:68-74 | each kept item is the first input item with its ID |
| FashionService.DedupInFirstOrder | backend/internal/domain/services/fashion_recommendation.go:68-74 | the kept items appear in the order of their IDs' first occurrences |
| FashionService.GetClothingByCategory | backend/internal/domain/services/fashion_recommendation.go:55-63 | the loop returns the category filter, in input order |
| FashionService.RemoveDuplicates | backend/internal/domain/services/fashion_recommendation.go:65-77 | the loop over a seen-set returns the first-occurrence list `Dedup` |
| FashionService.RecommendProperties | backend/internal/domain/services/fashion_recommendation.go:13-63 | every recommended item is an input item of a selected category, every such input item's ID is recommended, and the recommended IDs are distinct |
| FashionService.TemperatureItems | backend/internal/domain/services/fashion_recommendation.go:16-30 | the band's categories gathered from the input, in category order |
| FashionService.ConditionItems | backend/internal/domain/services/fashion_recommendation.go:32-42 | the condition's categories gathered from the input |
| FashionService.RecommendClothing | backend/internal/domain/services/fashion_recommendation.go:13-53 | the method's result is `Recommend`, whose properties `RecommendProperties` states |
| FashionService.DetermineStyle | backend/internal/domain/services/fashion_recommendation.go:161-168 | warm iff ≤10, cool iff ≥25, casual iff strictly between |
| FashionService.DeterminedStyleValidity | backend/internal/domain/services/fashion_recommendation.go:161-168 | the entity's `IsValidStyle` accepts the determined style iff the temperature is strictly between 10 and 25 (warm and cool are rejected) |
| FashionService.ToWeatherData | backend/internal/domain/services/fashion_recommendation.go:121-128 | the converted weather keeps temperature, condition, humidity, wind, location and time |
| FashionService.DescriptionAgreesWithStyle | backend/internal/domain/services/fashion_recommendation.go:92-106 | the description starts with the base sentence, continues with the cold sentence iff the style is warm and the hot sentence iff it is cool, and ends with the rain sentence iff the condition is 雨 |
| FashionService.ReasonAgreesWithStyle | backend/internal/domain/services/fashion_recommendation.go:149-159 | the reason is 寒い天気のため iff warm, 暑い天気のため iff cool, 雨天のため iff mild and raining; temperature takes precedence over rain |
| FashionService.GenerateDescription | backend/internal/domain/services/fashion_recommendation.go:92-106 | the description starts with the base sentence, ends with the rain sentence when the condition is 雨, and is the base sentence alone in the mild band without rain |
| FashionService.ReasonFor | backend/internal/domain/services/fashion_recommendation.go:149-159 | the reason is one of the four fixed phrases, and a cold or hot temperature never gives the rain reason |
| FashionService.GenerateOutfitSuggestion | backend/internal/domain/services/fashion_recommendation.go:79-90 | the suggestion carries the weather's condition and temperature, the recommended items and the description |
| FashionService.Strip | backend/internal/domain/services/fashion_recommendation.go:112-119 | the converted record has ID 0 and keeps name, category, colour and type |
| FashionService.Stripped | backend/internal/domain/services/fashion_recommendation.go:111-119 | one converted record per input item, in order |
| FashionService.ToRecommended | backend/internal/domain/services/fashion_recommendation.go:132-139 | the recommended item keeps category, name and colour and carries the weather's reason |
| FashionService.ZeroIdsAtMostOne | backend/internal/domain/services/fashion_recommendation.go:65-119 | a list with distinct IDs that are all 0 has at most one element |
| FashionService.StrippedRecommendation | backend/internal/domain/services/fashion_recommendation.go:108-139 | on the converted items the recommendation has at most one element, exactly one iff some user item has a selected category, and that element is such an item converted |
| FashionService.RecommendedItemsAtMostOne | backend/internal/domain/services/fashion_recommendation.go:108-147 | `GenerateRecommendation` yields at most one item, one iff some user item's category is selected, and it carries that item's category, name and colour and the weather's reason |
| FashionService.GenerateRecommendation | backend/internal/domain/services/fashion_recommendation.go:108-147 | the recommendation's items, style, description and weather are those the lemmas above describe |
| ClothingRepository.GeneratedId | backend/internal/infrastructure/repositories/clothing_repository.go:28-30 | the ID for a store of n entries is `clothing_` followed by the decimal digits of n + 1 |
| ClothingRepository.GeneratedIdInjective | backend/internal/infrastructure/repositories/clothing_repository.go:28-30 | two store sizes give the same generated ID iff they are equal |
| ClothingRepository.InMemoryClothingRepository.constructor | backend/internal/infrastructure/repositories/clothing_repository.go:17-21 | the store starts empty |
| ClothingRepository.InMemoryClothingRepository.Create | backend/internal/infrastructure/repositories/clothing_repository.go:24-34 | never fails; a non-empty ID is kept and an empty one becomes the generated ID for the current size; the entry under that ID is set, replacing any previous one, and every key keeps matching its item's ID |
| ClothingRepository.InMemoryClothingRepository.GetByID | backend/internal/infrastructure/repositories/clothing_repository.go:37-48 | the stored item when the key is present, otherwise the not-found error |
| ClothingRepository.InMemoryClothingRepository.GetByUserID | backend/internal/infrastructure/repositories/clothing_repository.go:51-64 | the loop over the map returns stored entries only, each once, and their IDs are exactly the keys whose user ID matches |
| ClothingRepository.InMemoryClothingRepository.Update | backend/internal/infrastructure/repositories/clothing_repository.go:67-77 | an unknown ID gives the not-found error and leaves the map unchanged; otherwise only that key's entry is replaced |
| ClothingRepository.InMemoryClothingRepository.Delete | backend/internal/infrastructure/repositories/clothing_repository.go:80-90 | an unknown ID gives the not-found error and leaves the map unchanged; otherwise only that key is removed |
| OutfitPostRepository.GeneratedId | backend/internal/infrastructure/repositories/outfit_post_repository.go:26-28 | the ID for a store of n entries is `outfit_` followed by the decimal digits of n + 1 |
| OutfitPostRepository.GeneratedIdInjective | backend/internal/infrastructure/repositories/outfit_post_repository.go:26-28 | two store sizes give the same generated ID iff they are equal |
| OutfitPostRepository.InMemoryOutfitPostRepository.constructor | backend/internal/infrastructure/repositories/outfit_post_repository.go:16-20 | the store starts empty |
| OutfitPostRepository.InMemoryOutfitPostRepository.Create | backend/internal/infrastructure/repositories/outfit_post_repository.go:22-32 | never fails; a non-empty ID is kept and an empty one becomes the generated ID for the current size; the entry under that ID is set, replacing any previous one, and every key keeps matching its post's ID |
| OutfitPostRepository.InMemoryOutfitPostRepository.GetByID | backend/internal/infrastructure/repositories/outfit_post_repository.go:34-45 | the stored post when the key is present, otherwise the not-found error |
| OutfitPostRepository.InMemoryOutfitPostRepository.GetByUserID | backend/internal/infrastructure/repositories/outfit_post_repository.go:47-60 | the loop over the map returns stored entries only, each once, and their IDs are exactly the keys whose user ID matches |
| OutfitPostRepository.InMemoryOutfitPostRepository.GetAll | backend/internal/infrastructure/repositories/outfit_post_repository.go:62-73 | one entry per stored post: stored entries only, IDs distinct, every key covered, length equal to the map size |
| OutfitPostRepository.InMemoryOutfitPostRepository.Update | backend/internal/infrastructure/repositories/outfit_post_repository.go:75-85 | an unknown ID gives the not-found error and leaves the map unchanged; otherwise only that key's entry is replaced |
| OutfitPostRepository.InMemoryOutfitPostRepository.Delete | backend/internal/infrastructure/repositories/outfit_post_repository.go:87-97 | an unknown ID gives the not-found error and leaves the map unchanged; otherwise only that key is removed |
| UserRepository.GeneratedId | backend/internal/infrastructure/repositories/user_repository.go:36-38 | the ID for a store of n entries is `user_` followed by the decimal digits of n + 1 |
| UserRepository.GeneratedIdInjective | backend/internal/infrastructure/repositories/user_repository.go:36-38 | two store sizes give the same generated ID iff they are equal |
| UserRepository.InMemoryUserRepository.constructor | backend/internal/infrastructure/repositories/user_repository.go:23-27 | the store starts empty |
| UserRepository.InMemoryUserRepository.Create | backend/internal/infrastructure/repositories/user_repository.go:30-42 | never fails; a non-empty ID is kept and an empty one becomes the generated ID for the current size; the entry under that ID is set, replacing any previous one, and every key keeps matching its user's ID |
| UserRepository.InMemoryUserRepository.GetByID | backend/internal/infrastructure/repositories/user_repository.go:45-56 | the stored user when the key is present, otherwise the not-found error |
| UserRepository.InMemoryUserRepository.GetByEmail | backend/internal/infrastructure/repositories/user_repository.go:59-72 | returns some stored user with that email when one exists; the not-found error iff none has it |
| UserRepository.InMemoryUserRepository.Update | backend/internal/infrastructure/repositories/user_repository.go:75-85 | an unknown ID gives the not-found error and leaves the map unchanged; otherwise only that key's entry is replaced |
| UserRepository.InMemoryUserRepository.Delete | backend/internal/infrastructure/repositories/user_repository.go:88-98 | an unknown ID gives the not-found error and leaves the map unchanged; otherwise only that key is removed |
| FashionRecommendationRepository.GeneratedId | backend/internal/infrastructure/repositories/fashion_recommendation_repository.go:28-30 | the ID for a store of n entries is `recommendation_` followed by the decimal digits of n + 1 |
| FashionRecommendationRepository.GeneratedIdInjective | backend/internal/infrastructure/repositories/fashion_recommendation_repository.go:28-30 | two store sizes give the same generated ID iff they are equal |
| FashionRecommendationRepository.InMemoryFashionRecommendationRepository.constructor | backend/internal/infrastructure/repositories/fashion_recommendation_repository.go:17-21 | the store starts empty |
| FashionRecommendationRepository.InMemoryFashionRecommendationRepository.Create | backend/internal/infrastructure/repositories/fashion_recommendation_repository.go:24-34 | never fails; a non-empty ID is kept and an empty one becomes the generated ID for the current size; the entry under that ID is set, replacing any previous one, and every key keeps matching its recommendation's ID |
| FashionRecommendationRepository.InMemoryFashionRecommendationRepository.GetByID | backend/internal/infrastructure/repositories/fashion_recommendation_repository.go:37-48 | the stored recommendation when the key is present, otherwise the not-found error |
| FashionRecommendationRepository.InMemoryFashionRecommendationRepository.GetByUserID | backend/internal/infrastructure/repositories/fashion_recommendation_repository.go:51-65 | the loop over the map returns stored entries only, each once, and their IDs are exactly the keys whose user ID matches |
| FashionRecommendationRepository.InMemoryFashionRecommendationRepository.Update | backend/internal/infrastructure/repositories/fashion_recommendation_repository.go:68-78 | an unknown ID gives the not-found error and leaves the map unchanged; otherwise only that key's entry is replaced |
| FashionRecommendationRepository.InMemoryFashionRecommendationRepository.Delete | backend/internal/infrastructure/repositories/fashion_recommendation_repository.go:80-90 | an unknown ID gives the not-found error and leaves the map unchanged; otherwise only that key is removed |
| ClothingRepository.IdCollisionAfterDelete | backend/internal/infrastructure/repositories/clothing_repository.go:28-88 | create two items without IDs, delete `clothing_1`, create a third: it is given `clothing_2` and replaces the second item, so the store loses it whenever the two differ |
| ClothingUseCase.BuildItem | backend/internal/application/usecases/clothing_usecase.go:20-39 | the built item copies the request's user ID, name, category, colour, brand, image and warmth level, and has no ID, no type and no creation time (the request has no type field) |
| ClothingUseCase.BuiltItemNeverValid | backend/internal/application/usecases/clothing_usecase.go:20-43 | the built item never passes `Validate`; the error is about the user ID, the name or the type |
| ClothingUseCase.Overwrite | backend/internal/application/usecases/clothing_usecase.go:70-75 | the update overwrites name, category, colour, brand, image and warmth level and keeps ID, user ID, type and creation time |
| ClothingUseCase.OverwriteValidity | backend/internal/application/usecases/clothing_usecase.go:70-79 | a valid stored item stays valid after the overwrite iff the request's name, colour and category are non-empty |
| ClothingUseCase.ClothingUseCase.constructor | backend/internal/application/usecases/clothing_usecase.go:14-18 | the use case holds the given repository |
| ClothingUseCase.ClothingUseCase.CreateClothingItem | backend/internal/application/usecases/clothing_usecase.go:30-50 | always fails with `invalid clothing item data: ` and the validation message, and the repository is left unchanged |
| ClothingUseCase.ClothingUseCase.UpdateClothingItem | backend/internal/application/usecases/clothing_usecase.go:60-86 | a missing item gives the not-found error and a foreign owner the unauthorized error, both without a write; otherwise the overwritten item is stored and returned when valid, and nothing is stored when it is not |
| ClothingUseCase.ClothingUseCase.DeleteClothingItem | backend/internal/application/usecases/clothing_usecase.go:88-99 | deletes only an existing item owned by the caller; the not-found and unauthorized cases leave the store unchanged |
| OutfitUseCase.BuildPost | backend/internal/application/usecases/outfit_usecase.go:21-42 | the built post copies the request's fields, has no ID and no items, zero likes and the supplied creation time |
| OutfitUseCase.BuiltPostNeverValid | backend/internal/application/usecases/outfit_usecase.go:21-47 | the built post never passes `Validate`, because it has no items |
| OutfitUseCase.OutfitUseCase.constructor | backend/internal/application/usecases/outfit_usecase.go:15-19 | the use case holds the given repository |
| OutfitUseCase.OutfitUseCase.CreateOutfitPost | backend/internal/application/usecases/outfit_usecase.go:31-55 | always fails with `invalid outfit post data: ` and the validation message, and nothing is stored |
| OutfitUseCase.OutfitUseCase.LikeOutfitPost | backend/internal/application/usecases/outfit_usecase.go:69-84 | a missing post gives the not-found error and no write; otherwise the stored post's likes grow by exactly one and nothing else changes; the caller is not consulted |
| OutfitUseCase.OutfitUseCase.DeleteOutfitPost | backend/internal/application/usecases/outfit_usecase.go:86-98 | removes the post only if it exists and belongs to the caller; otherwise the store is unchanged |
| OutfitUseCase.LikeTwice | backend/internal/application/usecases/outfit_usecase.go:69-84 | the same user liking the same post twice succeeds both times and adds two likes |
| OutfitController.RemovePostMeaning | frontend/web/controllers/OutfitController.ts:152-153 | deleting keeps exactly the posts with another ID, and is the identity when no post has the ID |
| OutfitController.ReplacePost | frontend/web/controllers/OutfitController.ts:128-133 | updating keeps the list's length; every post with the ID becomes the updated post and every other post stays where it was |
| OutfitController.RemovePost | frontend/web/controllers/OutfitController.ts:152-153 | deleting never lengthens the list and keeps exactly the posts with another ID |
| OutfitController.LikeIn | frontend/web/controllers/OutfitController.ts:170-179 | liking keeps the list's length and every field but the like count; the posts with the ID gain one like, the others keep theirs |
| OutfitController.UnlikeIn | frontend/web/controllers/OutfitController.ts:191-203 | unliking keeps the list's length and every field but the like count; a post with the ID loses one like but never goes below zero, the others keep theirs |
| OutfitController.ReplaceTouchesOnlyId | frontend/web/controllers/OutfitController.ts:128-133 | updating keeps the length, changes nothing once the posts with the ID are removed, and every post with the ID is the updated one |
| OutfitController.LikeTouchesOnlyId | frontend/web/controllers/OutfitController.ts:170-177 | a like changes only the posts with that ID |
| OutfitController.UnlikeTouchesOnlyId | frontend/web/controllers/OutfitController.ts:191-202 | an unlike changes only the posts with that ID |
| OutfitController.UnlikeAfterLike | frontend/web/controllers/OutfitController.ts:166-210 | on non-negative counts, unliking after liking restores the list, and both keep every count non-negative (unlike stops at zero) |
| OutfitController.CreateThenDelete | frontend/web/controllers/OutfitController.ts:110-153 | a created post comes first, and deleting it again restores the list when its ID was new |
| OutfitController.FilterOnePerCategory | frontend/web/controllers/OutfitController.ts:216-224 | dropping items keeps at most one item per category |
| OutfitController.ReplaceCategoryMeaning | frontend/web/controllers/OutfitController.ts:216-224 | adding an item keeps at most one per category, puts the item last, removes the earlier item of its category and keeps every item of other categories |
| OutfitController.MergeFilters | frontend/web/controllers/OutfitController.ts:238-243 | each of the six fields (weather, season, temperature, tags, search text, sort key) takes the patch's value when the patch mentions the key, `undefined` included (which clears the filter), and keeps the previous value when it does not |
| OutfitController.MergeFiltersLaws | frontend/web/views/pages/PostsPage.tsx:169 | merging the same patch twice equals merging it once, and the empty patch `{}` sent by the clear button changes nothing |
| OutfitController.SelectChange | frontend/web/views/pages/PostsPage.tsx:120-158 | a weather, season or temperature select sends `value \|\| undefined`: the empty option clears that filter, any other option sets it, and the other filters are kept |
| OutfitController.OutfitController.constructor | frontend/web/controllers/OutfitController.ts:54-60 | empty lists, not loading, no error, no selection, empty outfit and filters |
| OutfitController.OutfitController.HandleError | frontend/web/controllers/OutfitController.ts:65-71 | the error holds the thrown message (or the operation's fallback text), loading ends, nothing else changes |
| OutfitController.OutfitController.LoadPosts | frontend/web/controllers/OutfitController.ts:76-87 | success replaces the posts and clears the error; failure keeps them and records the message; loading ends either way |
| OutfitController.OutfitController.LoadUserPosts | frontend/web/controllers/OutfitController.ts:89-103 | the same for the user's posts |
| OutfitController.OutfitController.CreateOutfitPost | frontend/web/controllers/OutfitController.ts:105-268 | returns true iff the call succeeds; then the new post is prepended to both lists; on failure both lists are kept and the message recorded |
| OutfitController.OutfitController.UpdatePost | frontend/web/controllers/OutfitController.ts:122-144 | success replaces every post with the ID in both lists and the selection iff it has the ID; failure changes no list |
| OutfitController.OutfitController.DeletePost | frontend/web/controllers/OutfitController.ts:146-164 | success removes every post with the ID from both lists and clears a matching selection; failure changes nothing but the error |
| OutfitController.OutfitController.LikePost | frontend/web/controllers/OutfitController.ts:166-185 | success adds one like to every post with the ID in both lists; failure keeps the lists and records the message |
| OutfitController.OutfitController.UnlikePost | frontend/web/controllers/OutfitController.ts:187-210 | success removes one like, never below zero; failure keeps the lists and records the message |
| OutfitController.OutfitController.SelectPost | frontend/web/controllers/OutfitController.ts:212-214 | sets the selection and nothing else |
| OutfitController.OutfitController.AddToCurrentOutfit | frontend/web/controllers/OutfitController.ts:216-224 | the outfit becomes the category replacement, which keeps one item per category |
| OutfitController.OutfitController.RemoveFromCurrentOutfit | frontend/web/controllers/OutfitController.ts:226-228 | removes the items with the ID, nothing else changes |
| OutfitController.OutfitController.ClearCurrentOutfit | frontend/web/controllers/OutfitController.ts:230-232 | empties the outfit only |
| OutfitController.OutfitController.ClearError | frontend/web/controllers/OutfitController.ts:234-236 | clears the error only |
| OutfitController.OutfitController.UpdateFilters | frontend/web/controllers/OutfitController.ts:238-243 | the filters become the merge of the old ones and the patch, so a key sent as `undefined` is cleared |
| OutfitController.FilterTags | frontend/web/controllers/OutfitController.ts:344-347 | the filter gives one more tag than the filter text has commas; no tag holds a comma or an upper-case letter, and none starts or ends with whitespace |
| OutfitController.PostTags | frontend/web/controllers/OutfitController.ts:348 | one tag per post tag, in order, each the lower-casing of the post tag at the same position |
| OutfitController.KeepPost | frontend/web/controllers/OutfitController.ts:330-359 | the cleared filters keep every post, and a post kept under a set temperature lies within five degrees of it |
| OutfitController.SortPosts | frontend/web/controllers/OutfitController.ts:360-375 | sorting keeps the same posts, each as often, and leaves the list alone for a sort key other than newest, oldest or likes |
| OutfitController.SortPostsPermutation | frontend/web/controllers/OutfitController.ts:360-375 | sorting only reorders the posts |
| OutfitController.SortPostsOrder | frontend/web/controllers/OutfitController.ts:360-375 | newest gives non-increasing creation times, oldest non-decreasing, likes non-increasing likes; any other value leaves the order alone |
| OutfitController.FilteredPostsMeaning | frontend/web/controllers/OutfitController.ts:330-375 | the result is a permutation of the posts the filters keep, ordered as sortBy asks |
| OutfitController.FilterBounds | frontend/web/controllers/OutfitController.ts:332-389 | a set temperature T keeps only posts within T ± 5, and the cleared filters keep every post |
| OutfitController.TagFilterMeaning | frontend/web/controllers/OutfitController.ts:343-350 | with only a tag filter, a post is kept iff one of its lower-cased tags equals a trimmed piece of the lower-cased filter |
| OutfitController.OutfitFilters.constructor | frontend/web/controllers/OutfitController.ts:322-328 | the filters start cleared, sorted newest first |
| OutfitController.OutfitFilters.ClearFilters | frontend/web/controllers/OutfitController.ts:381-389 | restores the cleared filters |
| OutfitController.OutfitFilters.UpdateFilter | frontend/web/controllers/OutfitController.ts:377-379 | the key temperature, weather, tags, searchText or sortBy replaces that one field (the temperature with the parsed number) and keeps the other four; any other key leaves the filters as they were |
| OutfitController.SlotOf | frontend/web/controllers/OutfitController.ts:415-443 | tops/shirts go to the top slot, bottoms/pants/skirts to the bottom, shoes to shoes, outerwear/jackets to outerwear, accessories to the accessory list, each iff; anything else goes nowhere |
| OutfitController.AddAccessoryMeaning | frontend/web/controllers/OutfitController.ts:434-439 | adding an accessory keeps the IDs distinct and holds the new one exactly once |
| OutfitController.OutfitBuilder.constructor | frontend/web/controllers/OutfitController.ts:401-413 | every slot empty, no accessories |
| OutfitController.OutfitBuilder.AddToOutfit | frontend/web/controllers/OutfitController.ts:415-443 | fills exactly the slot the category names (an accessory replaces one with its ID); unlisted categories change nothing; accessory IDs stay distinct |
| OutfitController.OutfitBuilder.RemoveFromOutfit | frontend/web/controllers/OutfitController.ts:445-468 | empties the named slot, or removes the accessory with the ID when one is given |
| OutfitController.OutfitBuilder.ClearOutfit | frontend/web/controllers/OutfitController.ts:470-478 | empties every slot |
| OutfitController.OutfitBuilder.GetOutfitItems | frontend/web/controllers/OutfitController.ts:480-488 | the items are the filled slots in the order top, bottom, shoes, outerwear, followed by all the accessories in order; an item is listed exactly when it fills a slot or is an accessory |
| OutfitController.CompleteByThreeAdds | frontend/web/controllers/OutfitController.ts:415-492 | adding a top, pants and shoes makes the outfit complete |
| ClothingLists.RemoveItemMeaning | frontend/web/controllers/ClothingController.ts:141 | removing keeps exactly the items with another ID, never grows the list, is the identity when no item has the ID, and is idempotent |
| ClothingLists.ReplaceItemMeaning | frontend/web/controllers/ClothingController.ts:120-122 | replacing keeps the length, changes nothing once the items with the ID are removed, and every item with the ID is the updated one |
| ClothingLists.FilterDistinct | frontend/web/views/OutfitComponents.tsx:160-164 | dropping items keeps the IDs distinct |
| ClothingLists.RemoveItemKeepsDistinct | frontend/web/controllers/ClothingController.ts:141 | removing by ID keeps the IDs distinct |
| ClothingController.BumpCounts | frontend/web/controllers/ClothingController.ts:164-167 | one `acc[k] = (acc[k] \|\| 0) + 1` step adds one to the total and to k's count only |
| ClothingController.BumpKeys | frontend/web/controllers/ClothingController.ts:164-167 | a step adds k to the keys and nothing else |
| ClothingController.BumpDistinct | frontend/web/controllers/ClothingController.ts:164-167 | a step keeps each key once |
| ClothingController.TallyOfMeaning | frontend/web/controllers/ClothingController.ts:164-345 | counting a list of keys gives total = its length, each key's count = its multiplicity, the keys are exactly the listed ones, each once |
| ClothingController.TallyOf | frontend/web/controllers/ClothingController.ts:164-345 | counting a list of keys gives distinct keys whose counts add up to the number of keys |
| ClothingController.FieldValues | frontend/web/controllers/ClothingController.ts:329-345 | one value per item, in order: the item's category or colour as the statistic asks |
| ClothingController.MatchesSearch | frontend/web/controllers/ClothingController.ts:288-294 | the empty search matches every item, and a match needs a name, brand or description at least as long as the search text |
| ClothingController.KeepItem | frontend/web/controllers/ClothingController.ts:283-297 | the cleared filters keep every item; a kept item has the filter's category and lists its season when those are set, and is long enough to contain the search text |
| ClothingController.CountBy | frontend/web/controllers/ClothingController.ts:164-344 | the reduce loop builds the tally of the items' field values: total = number of items, each count = multiplicity |
| ClothingController.BumpAll | frontend/web/controllers/ClothingController.ts:334-338 | the inner loop over one item's seasons extends the tally by those seasons |
| ClothingController.CountSeasons | frontend/web/controllers/ClothingController.ts:334-339 | the nested loop counts every season entry of every item |
| ClothingController.ClothingStats | frontend/web/controllers/ClothingController.ts:326-354 | total is the item count; the category and colour tallies each sum to it; the season tally sums to the number of season entries |
| ClothingController.FilteredItemsMeaning | frontend/web/controllers/ClothingController.ts:283-311 | an item is kept iff it is an input item passing every set filter; the cleared filters keep the list as it is |
| ClothingController.SearchNarrows | frontend/web/controllers/ClothingController.ts:288-295 | setting the search text only removes items, and each kept item's name, brand or description contains it |
| ClothingController.ClothingFilters.constructor | frontend/web/controllers/ClothingController.ts:275-281 | the filters start empty |
| ClothingController.ClothingFilters.UpdateFilter | frontend/web/controllers/ClothingController.ts:299-301 | a known key sets that filter only; any other key leaves the five filters alone |
| ClothingController.ClothingFilters.ClearFilters | frontend/web/controllers/ClothingController.ts:303-311 | restores the empty filters |
| ClothingController.ClothingController.constructor | frontend/web/controllers/ClothingController.ts:42-46 | empty lists, not loading, no error, no selection |
| ClothingController.ClothingController.HandleError | frontend/web/controllers/ClothingController.ts:48-54 | the error holds the thrown message or the operation's fallback text, loading ends, lists and selection are kept |
| ClothingController.ClothingController.LoadItems | frontend/web/controllers/ClothingController.ts:56-190 | success replaces the items and clears the error; failure keeps them and records the message; loading ends |
| ClothingController.ClothingController.LoadCategories | frontend/web/controllers/ClothingController.ts:69-80 | the category table is loaded and the error cleared |
| ClothingController.ClothingController.AddItem | frontend/web/controllers/ClothingController.ts:98-222 | success appends the new item at the end, keeping the earlier ones; failure keeps the list and records the message |
| ClothingController.ClothingController.UpdateItem | frontend/web/controllers/ClothingController.ts:114-133 | success replaces every item with the ID and the selection iff it has the ID; failure changes nothing but the error |
| ClothingController.ClothingController.UpdateItemWithValidation | frontend/web/controllers/ClothingController.ts:224-246 | success replaces every item with the ID but leaves the selection alone |
| ClothingController.ClothingController.DeleteItem | frontend/web/controllers/ClothingController.ts:135-152 | success removes every item with the ID and clears a matching selection; failure changes nothing but the error |
| ClothingController.ClothingController.SelectItem | frontend/web/controllers/ClothingController.ts:154-156 | sets the selection only |
| ClothingController.ClothingController.ClearError | frontend/web/controllers/ClothingController.ts:158-160 | clears the error only |
| ClothingController.ClothingController.GetClothingStats | frontend/web/controllers/ClothingController.ts:162-170 | total is the item count and the category tally counts each category's items |
| ClothingController.AddThenDelete | frontend/web/controllers/ClothingController.ts:104-141 | deleting a just-added item with a fresh ID restores the list |
| ClothingComponents.CategoryIcon | frontend/web/views/ClothingComponents.tsx:23-39 | each of the twelve categories, lower-cased, maps to its icon, and every other category falls back to the T-shirt icon |
| ClothingComponents.CategoryIconCaseInsensitive | frontend/web/views/ClothingComponents.tsx:38 | the icon does not depend on the category's case |
| ClothingComponents.WarmthLevelColor | frontend/web/views/ClothingComponents.tsx:41-47 | each of the five colour classes is chosen exactly for its band of warmth levels (8 and up, 6-7, 4-5, 2-3, below 2) |
| ClothingComponents.InitialForm | frontend/web/views/ClothingComponents.tsx:337-346 | a new form holds the defaults (size M, warmth 5, empty fields); an edited item's name, category, colour, seasons and brand are copied, its description or the empty string when it has none, and a falsy size or warmth falls back to its default, so size is never empty and warmth never 0 |
| ClothingComponents.ClothingForm.constructor | frontend/web/views/ClothingComponents.tsx:337-346 | the form starts in its initial state for the given item |
| ClothingComponents.ClothingForm.HandleSeasonChange | frontend/web/views/ClothingComponents.tsx:351-358 | checking a season appends it; unchecking removes every copy of it; no other field changes |
| ClothingComponents.SeasonChangeMeaning | frontend/web/views/ClothingComponents.tsx:351-358 | unchecking removes the season and keeps every other one; checking twice adds two copies; check then uncheck of an absent season restores the list |
| ClothingComponents.OverviewMeaning | frontend/web/views/ClothingComponents.tsx:545-558 | the overview has one count per category (same name, order) and one per season in 春夏秋冬 order; each count is the number of positions of the item list whose item has that category, or lists that season; so each is at most the total and all are zero for an empty closet |
| ClothingComponents.OverviewOf | frontend/web/views/ClothingComponents.tsx:545-558 | the total is the number of items, with one count per given category and one per season |
| OutfitComponents.LikeButton.constructor | frontend/web/views/OutfitComponents.tsx:25 | a card starts not liked |
| OutfitComponents.LikeButton.Click | frontend/web/views/OutfitComponents.tsx:28-36 | a click calls unlike when liked and like otherwise, and flips the liked state |
| OutfitComponents.ClickActions | frontend/web/views/OutfitComponents.tsx:28-36 | n clicks from a fresh card produce n calls that alternate like, unlike, like, starting with like |
| OutfitComponents.ClickTimes | frontend/web/views/OutfitComponents.tsx:28-36 | clicking n times in a row produces exactly that alternating sequence of calls |
| OutfitComponents.InitialTemperature | frontend/web/views/OutfitComponents.tsx:278 | the form's temperature is the weather's, or 20 when there is no weather or its temperature is the falsy 0 |
| OutfitComponents.ParseTagsShape | frontend/web/views/OutfitComponents.tsx:284-287 | there are never more tags than comma-separated pieces, and each tag is non-empty, has no comma and no whitespace at either end |
| OutfitComponents.ParseTags | frontend/web/views/OutfitComponents.tsx:284-287 | there are at most one more tags than the text has commas, and every tag is non-empty and free of commas |
| OutfitComponents.TrimAllMembers | frontend/web/views/OutfitComponents.tsx:286 | trimming every piece yields exactly the trimmed pieces |
| OutfitComponents.ParseTagsMembers | frontend/web/views/OutfitComponents.tsx:284-287 | a string is a tag exactly when it is non-empty and is some trimmed comma-separated piece of the input |
| OutfitComponents.ParseTagsKeepsNonEmpty | frontend/web/views/OutfitComponents.tsx:287 | the final filter keeps exactly the non-empty trimmed pieces |
| OutfitComponents.ItemIds | frontend/web/views/OutfitComponents.tsx:295 | one ID per selected item, in order, each the ID of the item at the same position |
| OutfitComponents.Submission | frontend/web/views/OutfitComponents.tsx:282-298 | a submitted post belongs to user "1", has no likes, keeps the description and temperature, lists the selected items' IDs in order, and carries the parsed tags |
| OutfitComponents.GroupsPartition | frontend/web/views/OutfitComponents.tsx:455-472 | no category belongs to two groups, only the five group keys hold anything, and a group's items are exactly the items whose category the group's case lists |
| OutfitComponents.GroupOf | frontend/web/views/OutfitComponents.tsx:475-478 | the group found for an item ID is one of the five keys holding an item with that ID, and no group is found exactly when no group holds one |
| OutfitComponents.FilterOnePerGroup | frontend/web/views/OutfitComponents.tsx:482-488 | dropping selected items keeps at most one item per group with distinct IDs |
| OutfitComponents.SelectedApart | frontend/web/views/OutfitComponents.tsx:482-488 | after the filter, no remaining selected item is in the new item's group |
| OutfitComponents.SelectOnePerGroup | frontend/web/views/OutfitComponents.tsx:482-491 | filtering out the item's group and appending the item keeps one item per group, puts the item last, and leaves no other item with its ID or its group |
| OutfitComponents.AtMostOnePerKey | frontend/web/views/OutfitComponents.tsx:446-452 | a selection with one item per group from a set of keys has at most as many items as there are keys |
| OutfitComponents.OutfitBuilderView.constructor | frontend/web/views/OutfitComponents.tsx:444 | the builder starts with nothing selected |
| OutfitComponents.OutfitBuilderView.HandleItemSelect | frontend/web/views/OutfitComponents.tsx:474-493 | an item in no group changes nothing and reports nothing; otherwise the selection becomes the items outside its group followed by the item, which is reported, and one item per group still holds |
| OutfitComponents.OutfitBuilderView.HandleItemRemove | frontend/web/views/OutfitComponents.tsx:495-499 | removing drops every selected item with the ID, reports the new selection, and one item per group still holds |
| OutfitComponents.OutfitBuilderView.SelectionSize | frontend/web/views/OutfitComponents.tsx:446-452 | the selection never holds more items than the five group slots |
| OutfitComponents.WeatherHintsMeaning | frontend/web/views/OutfitComponents.tsx:644-656 | each hint is shown exactly when its condition holds (above 25°C, below 15°C, "rain" in the condition, wind above 5), and at most three show at once |
| OutfitComponents.WeatherHints | frontend/web/views/OutfitComponents.tsx:644-656 | at most three hints show, none of them twice |
| WeatherComponents.WeatherIcon | frontend/web/views/WeatherComponents.tsx:16-27 | each of the seven conditions, lower-cased, maps to its icon and every other condition to the sun-behind-cloud icon |
| WeatherComponents.WeatherIconCaseInsensitive | frontend/web/views/WeatherComponents.tsx:26 | the icon does not depend on the condition's case |
| WeatherComponents.TemperatureBand | frontend/web/views/WeatherComponents.tsx:29-36 | the six bands are exactly the ranges below 10, 10-15, 15-20, 20-25, 25-30 and 30 and above |
| WeatherComponents.TemperatureColor | frontend/web/views/WeatherComponents.tsx:29-36 | the colour is the band's entry in the cold-to-hot colour list |
| WeatherComponents.TemperatureColorMonotone | frontend/web/views/WeatherComponents.tsx:29-36 | a warmer temperature never gets a colder band, the six colours differ, and two temperatures share a colour exactly when they share a band |
| WeatherComponents.AlertIcon | frontend/web/views/WeatherComponents.tsx:173-184 | a watch gets the eyes icon, an advisory the information icon, and a warning or any other type the warning sign |
| WeatherComponents.AlertColor | frontend/web/views/WeatherComponents.tsx:186-197 | high, medium and low severities get red, yellow and blue classes, anything else gray |
| WeatherComponents.WarmthIndex | frontend/web/views/WeatherComponents.tsx:234-259 | each of the six warmth labels is chosen exactly on its temperature range (30 and up, 25-30, 20-25, 15-20, 10-15, below 10) |
| WeatherComponents.BandAdvice | frontend/web/views/WeatherComponents.tsx:230-259 | the if-chain sets the label of the temperature's range and pushes exactly that range's base advice |
| WeatherComponents.ClothingAdvice | frontend/web/views/WeatherComponents.tsx:227-281 | the label is the temperature's, and the advice is the base advice followed by the rain, snow, wind and humidity additions in that order |
| WeatherComponents.AdviceCounts | frontend/web/views/WeatherComponents.tsx:234-278 | the base advice has three items at 30°C and above and two otherwise; rain and snow add two each, strong wind and high humidity one each; so there are between 2 and 9 items |
| AuthComponents.FormErrorsMeaning | frontend/web/views/AuthComponents.tsx:125-142 | the form has no errors exactly when the password has 8 or more characters, matches its confirmation and the name has 2 or more; each message appears exactly when its rule fails, the password message first and the name message last |
| AuthComponents.FormErrors | frontend/web/views/AuthComponents.tsx:125-142 | at most three messages, each one of the three validation messages |
| AuthComponents.RegisterForm.constructor | frontend/web/views/AuthComponents.tsx:116-123 | the form starts with four empty fields and no errors |
| AuthComponents.RegisterForm.ValidateForm | frontend/web/views/AuthComponents.tsx:125-142 | validation stores the form's errors, leaves the fields alone, and reports valid exactly when there are none |
| AuthComponents.RegisterForm.HandleSubmit | frontend/web/views/AuthComponents.tsx:144-149 | the form data is submitted, unchanged, exactly when validation finds no errors |
| AuthComponents.ShouldShowEdit | frontend/web/views/AuthComponents.tsx:272 | the edit button shows exactly for the owner or when the profile is known to be the user's own |
| AuthComponents.InitialEditForm | frontend/web/views/AuthComponents.tsx:353-360 | the edit form copies the name and e-mail; without preferences it holds no location, celsius, no notifications and public; with them it holds the stored location (or none), the notification flag, the stored unit unless empty (then celsius) and the stored privacy unless empty (then public) |
| AuthComponents.EditRoundTrip | frontend/web/views/AuthComponents.tsx:353-378 | saving the edit form unchanged through the user update keeps the ID, name, e-mail, profile fields and creation time, keeps each non-empty preference, and resets colours, styles and brands to the form's fixed values |
| FashionRecommendationPanel.ShownWeather | frontend/web/components/FashionRecommendation.tsx:200 | the shown weather is never empty: the given weather when it is non-empty, 晴れ when it is missing or empty |
| FashionRecommendationPanel.LocalRecommendations | frontend/web/components/FashionRecommendation.tsx:141-203 | the local recommendation lists the temperature band's two items, then rainwear when the weather mentions 雨, and carries the chosen style, the temperature and the shown weather |
| FashionRecommendationPanel.RecommendationShape | frontend/web/components/FashionRecommendation.tsx:143-196 | there are three items exactly when it rains, else two; only the rainwear, third, is an accessory; below 15 a coat and sweater, above 25 a T-shirt and shorts, otherwise a long-sleeve and chinos |
| FashionRecommendationPanel.BandItems | frontend/web/components/FashionRecommendation.tsx:144-186 | each temperature band gives two items, neither an accessory, and the first is outerwear exactly below 15 degrees |
| FashionRecommendationPanel.ItemIcon | frontend/web/components/FashionRecommendation.tsx:232-243 | outerwear (in either language, any case) gets the jacket icon, accessories the umbrella, and every other category the shirt |
| FashionRecommendationPanel.ItemColor | frontend/web/components/FashionRecommendation.tsx:245-256 | outerwear is blue, accessories yellow, and every other category green |
| FashionRecommendationPanel.IconMatchesColor | frontend/web/components/FashionRecommendation.tsx:232-256 | the icon and the colour always pick the same one of the three category kinds |
| FashionRecommendationPanel.CaseInsensitive | frontend/web/components/FashionRecommendation.tsx:233 | neither the icon nor the colour depends on the category's case |
| FashionRecommendationPanel.RecommendationIcons | frontend/web/components/FashionRecommendation.tsx:141-256 | in a local recommendation the umbrella marks exactly the rainwear and the jacket icon exactly the coat |
| LocationSearch.CodeText | frontend/web/components/LocationSearch.tsx:8 | a numeric city code below one million is written as exactly six decimal digits, zero-padded |
| LocationSearch.CodeRoundTrip | frontend/web/components/LocationSearch.tsx:14-63 | reading the six digits back gives the code, so the written form loses nothing |
| LocationSearch.CodeTextInjective | frontend/web/components/LocationSearch.tsx:14-63 | two different codes are never written the same |
| LocationSearch.StepsUpIncreasing | frontend/web/components/LocationSearch.tsx:13-64 | a table whose codes rise from each entry to the next has strictly increasing codes overall |
| LocationSearch.StepsUpAppend | frontend/web/components/LocationSearch.tsx:13-64 | two rising runs joined where the first ends below the second's start still rise |
| LocationSearch.BlocksStepUp | frontend/web/components/LocationSearch.tsx:14-63 | each of the five ten-city blocks of the table has rising codes |
| LocationSearch.TableStepsUp | frontend/web/components/LocationSearch.tsx:13-64 | the whole table of 50 cities has rising codes, ending with Naha's 471010 |
| LocationSearch.TableIncreasing | frontend/web/components/LocationSearch.tsx:13-64 | the table's codes are strictly increasing, so no code repeats |
| LocationSearch.TableCodes | frontend/web/components/LocationSearch.tsx:13-64 | every code in the table has at most six digits |
| LocationSearch.UniqueCodes | frontend/web/components/LocationSearch.tsx:83 | in a table of increasing six-digit codes, two cities with the same written code are the same city |
| LocationSearch.Search | frontend/web/components/LocationSearch.tsx:78-81 | the search keeps exactly the cities whose name or prefecture contains the term |
| LocationSearch.FilterIncreasing | frontend/web/components/LocationSearch.tsx:78-81 | filtering an increasing table keeps it increasing |
| LocationSearch.SearchMeaning | frontend/web/components/LocationSearch.tsx:78-81 | the search keeps the table's order, and an empty term shows the whole table |
| LocationSearch.FilteredCitiesMeaning | frontend/web/components/LocationSearch.tsx:78-81 | the shown cities are in code order, all of them for an empty term |
| LocationSearch.FilteredCities | frontend/web/components/LocationSearch.tsx:78-81 | the shown cities are at most the table, and are exactly the table's cities whose name or prefecture contains the term |
| LocationSearch.FindCity | frontend/web/components/LocationSearch.tsx:83 | a found city is in the table and has the selected code; nothing is found exactly when no city has it |
| LocationSearch.FindCityUnique | frontend/web/components/LocationSearch.tsx:83 | in a table of distinct codes the city with the selected code is the one found |
| LocationSearch.SelectedCityMeaning | frontend/web/components/LocationSearch.tsx:83 | the selected city exists exactly when some city of the table has the code, and then it is that city |
| LocationSearch.SelectedCity | frontend/web/components/LocationSearch.tsx:83 | a found city is in the table and has the selected code; when none is found no city of the table has it |
| LocationSearch.SelectedLabel | frontend/web/components/LocationSearch.tsx:101-103 | without a selected city the button reads 地域を選択; with one it starts with the city's name, ends with its prefecture and has three characters between them |
| LocationSearch.CitySearch.constructor | frontend/web/components/LocationSearch.tsx:75-76 | the search starts closed with an empty term |
| LocationSearch.CitySearch.Toggle | frontend/web/components/LocationSearch.tsx:98 | the button flips the list open or closed and keeps the term |
| LocationSearch.CitySearch.UpdateSearchTerm | frontend/web/components/LocationSearch.tsx:117 | typing sets the term and leaves the list open or closed |
| LocationSearch.CitySearch.HandleCitySelect | frontend/web/components/LocationSearch.tsx:85-89 | choosing a city reports its code, closes the list and clears the term, so the full table shows next time |
| UserProfileView.Section | frontend/web/components/UserProfile.tsx:218 | a section holds exactly the items of its category |
| UserProfileView.SectionStep | frontend/web/components/UserProfile.tsx:218 | an item at the front of the list lands at the front of its own category's section and in no other section |
| UserProfileView.SizesStep | frontend/web/components/UserProfile.tsx:99-105 | an item of one of the five labelled categories adds one to the total shown across the sections |
| UserProfileView.SectionsCover | frontend/web/components/UserProfile.tsx:217-242 | when every item has one of the five categories, the sections together show every item exactly once |
| UserProfileView.UserProfile.constructor | frontend/web/components/UserProfile.tsx:31-38 | the profile starts with no items, the panel closed and a blank entry of category tops |
| UserProfileView.UserProfile.FetchClothingItems | frontend/web/components/UserProfile.tsx:44-67 | loading replaces the items with the two mock items and changes nothing else |
| UserProfileView.UserProfile.SetShowAddItem | frontend/web/components/UserProfile.tsx:156 | the add and cancel buttons open and close the entry panel and change nothing else |
| UserProfileView.UserProfile.EditNewItem | frontend/web/components/UserProfile.tsx:168-191 | typing changes only the entry |
| UserProfileView.UserProfile.HandleAddItem | frontend/web/components/UserProfile.tsx:69-88 | an entry with a name, type and colour is appended with the clock as its ID, then the entry is reset and the panel closed; an entry missing any of them changes nothing |
| UserProfileView.UserProfile.HandleDeleteItem | frontend/web/components/UserProfile.tsx:90-97 | deleting keeps exactly the items with another ID, in order, and nothing else changes |
| UserProfileView.AddThenDelete | frontend/web/components/UserProfile.tsx:69-97 | deleting a just-added item with a fresh ID gives back the list from before |
| MockUserModel.FindByEmail | frontend/web/models/MockUserModel.ts:38 | the index found is the first user with the e-mail, and none is found exactly when no user has it |
| MockUserModel.FindById | frontend/web/models/MockUserModel.ts:101 | the index found is the first user with the ID, and none is found exactly when no user has it |
| MockUserModel.Token | frontend/web/models/MockUserModel.ts:46 | a token starts with `mock_token_`, the user's ID and an underscore |
| MockUserModel.ApplyPatch | frontend/web/models/MockUserModel.ts:111-115 | each field the patch gives replaces the user's, every other field is kept, and the update time is the current time |
| MockUserModel.PatchLaws | frontend/web/models/MockUserModel.ts:111-115 | an empty patch only stamps the update time, and applying a patch twice equals applying it once at the later time |
| MockUserModel.MockUserStore.constructor | frontend/web/models/MockUserModel.ts:9-27 | the store starts with the single seeded test user |
| MockUserModel.MockUserStore.Login | frontend/web/models/MockUserModel.ts:34-50 | login succeeds exactly when some user has the e-mail and the password is the mock password, returning the first user with that e-mail and a token for it; otherwise it fails with the login message |
| MockUserModel.MockUserStore.Register | frontend/web/models/MockUserModel.ts:52-91 | registering a taken e-mail fails with its message and changes nothing; otherwise one user is appended, with ID count+1, the request's fields and the default preferences, and returned with a token |
| MockUserModel.MockUserStore.GetProfile | frontend/web/models/MockUserModel.ts:93-97 | the profile is the first user |
| MockUserModel.MockUserStore.GetUserById | frontend/web/models/MockUserModel.ts:99-106 | the lookup succeeds exactly when some user has the ID, returning the first such user, and otherwise fails with the not-found message |
| MockUserModel.MockUserStore.UpdateProfile | frontend/web/models/MockUserModel.ts:108-118 | the first user is replaced by the patched one, which is returned; the other users are untouched |
| MockUserModel.MockUserStore.UpdatePreferences | frontend/web/models/MockUserModel.ts:120-131 | the first user gets the new preferences and update time, is returned, and the other users are untouched |
| MockUserModel.IdsDistinct | frontend/web/models/MockUserModel.ts:64 | numbering users "1", then count+1 on each registration, never gives two users the same ID |
| MockUserModel.RegisterThenLogin | frontend/web/models/MockUserModel.ts:34-91 | a user who has just registered can log in with the mock password, and the login returns exactly the registered user; a refused registration leaves the users unchanged |
| AuthController.MergeLaws | frontend/web/controllers/AuthController.ts:303-305 | a merge changes only the fields the patch supplies; an empty patch changes nothing, merging a patch twice is merging it once, and two merges in a row are one merge of the combined patch |
| AuthController.AuthController.constructor | frontend/web/controllers/AuthController.ts:296-301 | the state starts signed out, loading and without error |
| AuthController.AuthController.UpdateState | frontend/web/controllers/AuthController.ts:303-305 | the state becomes the old state merged with the patch |
| AuthController.AuthController.SignIn | frontend/web/controllers/AuthController.ts:35-79 | on success the user is stored, signed in, no longer loading and without error; on failure the user and sign-in flag stay, loading ends, the error or the operation's fallback message is shown, and the failure is rethrown |
| AuthController.AuthController.Logout | frontend/web/controllers/AuthController.ts:81-93 | logging out clears the user, the sign-in flag and the error but not the loading flag; a thrown error changes nothing |
| AuthController.AuthController.GetProfile | frontend/web/controllers/AuthController.ts:95-117 | a fetched profile signs the user in; a failure keeps the user, ends loading, shows the message and rethrows that same failure |
| AuthController.AuthController.UpdateUser | frontend/web/controllers/AuthController.ts:119-161 | an update never changes the sign-in flag and always ends loading; on success the updated user is stored without error, on failure the old user stays, the message is shown and that same failure is rethrown |
| AuthController.AuthController.InitializeAuth | frontend/web/controllers/AuthController.ts:163-173 | the state takes the stored user and the token's presence, not loading and without error |
| AuthController.AuthController.ClearError | frontend/web/controllers/AuthController.ts:175-177 | only the error is cleared |
| AuthController.AuthController.GetUserById | frontend/web/controllers/AuthController.ts:179-201 | the user is returned exactly when the lookup succeeds; a failure shows the message and returns nothing; the signed-in user is untouched and loading ends |
| AuthController.AuthController.GetCurrentUserWithValidation | frontend/web/controllers/AuthController.ts:270-291 | a fetched user signs in; any failure silently signs out without an error |
| AuthController.ConsistencyPreserved | frontend/web/controllers/AuthController.ts:35-93 | the initial state, a sign-in, a failed sign-in and a sign-out all keep "a user is stored exactly when signed in" |
| LocationController.SearchKeepsAll | frontend/web/controllers/LocationController.ts:36-62 | the filter keeps all three mock results, since each name starts with the query: result i is named after the query and prefecture i, at that prefecture's base position shifted by the random offsets |
| LocationController.RemoveFavoriteMeaning | frontend/web/controllers/LocationController.ts:126-128 | removal keeps exactly the favourites at another position, and removing a just-added location whose position was new gives back the old list |
| LocationController.LocationController.constructor | frontend/web/controllers/LocationController.ts:19-23 | the controller starts with no results, favourites or current location, not loading and without error |
| LocationController.LocationController.SearchLocations | frontend/web/controllers/LocationController.ts:25-72 | a blank query only clears the results; any other query stores the three mock results, ends loading and clears the error; favourites and storage are untouched |
| LocationController.LocationController.GetCurrentLocation | frontend/web/controllers/LocationController.ts:74-93 | a position becomes the current location named 現在地; a failure keeps the old one and shows the message; loading always ends |
| LocationController.LocationController.AddFavoriteLocation | frontend/web/controllers/LocationController.ts:95-118 | the location is appended to the favourites, which are saved when the write succeeds; a failed write keeps the old storage and shows the message |
| LocationController.LocationController.RemoveFavoriteLocation | frontend/web/controllers/LocationController.ts:120-145 | the favourites at the location's position are removed and the rest saved; a failed write keeps the old storage and shows the message |
| LocationController.LocationController.GetFavoriteLocations | frontend/web/controllers/LocationController.ts:147-166 | saved favourites replace the list, no saved value keeps it, and loading ends without error |
| LocationController.SaveThenReload | frontend/web/controllers/LocationController.ts:95-166 | after a saved addition, reloading gives the same favourites |
| OutfitModel.ValidationErrorsMeaning | frontend/web/models/OutfitModel.ts:125-145 | a post has no errors exactly when it has items, a non-blank description of at most 500 characters and a non-blank location; each message appears exactly when its rule fails |
| OutfitModel.ValidationErrors | frontend/web/models/OutfitModel.ts:125-145 | at most four messages, each one of the four validation messages |
| OutfitModel.ValidationErrorsOrdered | frontend/web/models/OutfitModel.ts:128-142 | the errors come in the fixed order items, description required, description too long, location |
| OutfitModel.BlankLongDescription | frontend/web/models/OutfitModel.ts:132-138 | a whitespace-only description longer than 500 characters draws both description errors |
| OutfitModel.ValidateOutfitPost | frontend/web/models/OutfitModel.ts:125-145 | the pushes of the method build exactly the validation errors |
| Common.ErrorMessage | frontend/web/controllers/AuthController.ts:50-51 | an `Error` shows its own message and any other thrown value the fallback |
| Common.Fallback | frontend/web/controllers/AuthController.ts:51 | the fallback is the operation's name followed by exactly に失敗しました |
| Text.Trim | frontend/web/models/OutfitModel.ts:132 | a trimmed string is one contiguous piece of the string with only whitespace before and after it; it neither starts nor ends with whitespace, and is empty exactly when the string is all whitespace |
| Text.Lower | frontend/web/views/ClothingComponents.tsx:38 | lower-casing keeps the length and maps each character on its own |
| Text.Split | frontend/web/views/OutfitComponents.tsx:285 | splitting gives one more piece than the string has separators; no piece holds the separator, and every character of a piece comes from the string |
| Text.JoinSplit | frontend/web/views/OutfitComponents.tsx:285 | joining the pieces with the separator gives back the string |
| Text.NatToString | frontend/web/models/MockUserModel.ts:64 | a number's decimal text is non-empty, one character long exactly below 10, and ends in its last digit |
| Text.NatToStringInjective | frontend/web/models/MockUserModel.ts:64 | different numbers have different decimal texts |

## Left out

- HTTP handlers, routing, middleware and JWT authentication of the backend are not part of this model. Neither are its user and fashion use cases (password hashing, tokens, the weather API and the clock) or its weather clients.
- The repositories' `sync.RWMutex` locking: every operation is modelled as atomic and sequential.
- Go map iteration order is unspecified. Listings are stated by the set of IDs they return, not by their order.
- Repositories store values rather than pointers, so aliasing between a stored entity and the caller's copy is not modelled.
- `time.Now`, `Date.now()` and `new Date().toISOString()` are parameters of the operations that read them (`now`, `millis`).
- The network half of the frontend models (`UserModel`, `ClothingModel`, `FashionModel`, `WeatherModel`), `api-client.ts` and the zod schemas are not part of this model. Each call's outcome is an input, so a schema rejection is one more `Rejected` outcome.
- `localStorage`, cookies and geolocation are fields or inputs. The JSON text written to storage is not modelled. The favourites are stored as a list.
- `MockUserModel.getCurrentUser`, `isAuthenticated` and `logout` read or do nothing but browser storage. `initializeAuth` takes their results as inputs.
- The artificial delays of the mock user store, `console.error` logging and React rendering (JSX, keys, `useCallback` identity, effects, races between concurrent requests) are not modelled.
- Random data (the mock search offsets, the mock weather) are inputs. `getMockOutfitPosts` and `getPopularTags` are fixed display data and are not modelled.
- `formatOutfitForDisplay` is not modelled: its date and weather summary use locale formatting and `Math.round`, and its item count is only the array length.
- Strings are sequences of characters. JavaScript's UTF-16 `.length` differs for characters outside the Basic Multilingual Plane.
- Text.Lower: `toLowerCase` folds only ASCII letters here. Locale and non-ASCII case mapping are not modelled.
- Text.Trim: whitespace is a fixed set of common space characters, not the full Unicode whitespace class.
- `parseFloat`/`parseInt` and `NaN`: the outfit filters' temperature bounds are optional, already-parsed numbers, and the recommendation panel's temperature is a number.
- Numbers: JavaScript numbers and Go `float64` temperatures are exact reals. Floating-point rounding is not modelled. IDs, counts, ages and levels are unbounded integers.
- ClothingController.ClothingFilters.UpdateFilter: a key other than the five filter fields adds an entry to the source's filter object that nothing reads. The model keeps only the five fields, so that entry is dropped.
- OutfitController.OutfitFilters.UpdateFilter: a key other than the five filter fields adds an entry to the source's filter state that nothing reads. The model keeps only the five fields, so that entry is dropped.
- Plain JavaScript objects serve as the counting objects of the statistics (`acc[k] || 0`) and as the icon tables (`iconMap[key] || default`). A key such as `constructor` or `toString` finds an inherited property there. The model treats every key as absent until it is counted or listed.
- JavaScript enumerates integer-like object keys first, in numeric order. The model's tallies keep their keys in order of first occurrence instead.
- LocationSearch: city codes are kept as numbers and shown with six digits. The round trip to the six-digit strings of the source table is proved, so lookups by code agree.
- UserProfileView: the optional `imageUrl` of the component's own item record is left out. It is never set.
- The weather views' guards against a missing weather object, and the recommendation panel's early return without weather or temperature, are rendering branches and are not modelled.
- Page, layout and guard components and the other views not named in the table are UI composition and are not modelled.
- OutfitController.SortPosts: a post's `createdAt` is an ISO string that the comparator turns into a number with `new Date(...).getTime()`; the model holds that number already parsed. An unparseable date gives NaN in the source; the comparator then returns NaN, which the sort reads as "equal", so the comparator is inconsistent and the order produced is implementation-defined. The model has no such value.
