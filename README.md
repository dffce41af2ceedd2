# Movie-tag profiles: a Dafny model

This project models the profile-building core of a small content-based movie
recommender. A `MoviesDatasetManager` holds four tables:

- movies (`iditem`, `title`);
- tags (`iditem`, `tag`), where a pair may repeat;
- ratings (`iduser`, `iditem`, `rating`);
- users (`iduser`, `username`).

From these tables it builds two labelled matrices:

- the **product profile**: movies by tags. Each cell is a TF-IDF weight, the term count of
  the tag on the movie times `ln(n_movies / df(tag))`. Each row is then divided by its own sum.
- the **user profile**: users by tags. Each cell is the dot product, over all movies, of the
  tag's product-profile column and the user's rating deviations. A deviation is the user's
  rating of the movie (0.0 when there is none) minus the user's mean rating.

Both matrices are assembled by `build_matrix`. It validates a raw 2-D array against its feature
labels and optionally appends named extra columns.

Files:

- `wrappers.dfy`: `Option` and `Result`.
- `seqs.dfy`: first-occurrence de-duplication (pandas `unique()`), plus sums, means and dot
  products over reals, with their lemmas.
- `utils.dfy`: `build_matrix`, with the DataFrame modelled as a `Table` of row labels, column
  labels and rows of cells.
- `managers.dfy`: the tables, the TF-IDF and rating-deviation computations as pure functions,
  and the `MoviesDatasetManager` class. Its fields are fixed at construction, and its methods
  build the profiles.

The `df.loc[...]` row filters are recursive functions over the table rows:

- `ItemsTagged` is the filter of the tag table by tag.
- `TermFreq` counts the rows of the tag table for one (movie, tag) pair.
- `RatingsWhere` is the filter of the ratings table by a row predicate. `RatingsBy` (one user)
  and `RatingsOfPair` (one user and one movie) are its two instances.

`TagCount` is not a filter of the source. It counts all tag rows of a movie, and it serves
to state what a TF row sums to.

`math.log` is a parameter `ln: real -> real` of the builders. The model says which argument
each IDF passes to it, and assumes nothing about its values.

The errors a degenerate dataset raises are modelled as `ProfileError` values:

- `LogDomainError`: the movies table is empty but the tag table is not, so the IDF calls `math.log(0)`.
- `AxisError`: both the movies table and the tag table are empty, so `sum(axis=1)` is taken of a 1-D empty array.
- `MatrixFailure(...)`: `build_matrix` rejects its input.

Two behaviours of the code deserve a note:

- Document frequency counts every distinct item that the tag table tags with `t`, including
  items missing from the movies table (tf_idf/managers.py:169). `DocFreqBounds` bounds the
  count by the distinct tagged items. `DocFreqAtMostMovies` bounds it by the movie list only
  when every tagged item is a movie.
- A user with no ratings gets a NaN mean (tf_idf/managers.py:218), which would spread into
  that user's whole profile row. The model makes this case a precondition (see Left out).

## Model

| member | source | states |
|---|---|---|
| Managers.MoviesDatasetManager.constructor | tf_idf/managers.py:55-58 | the four fields hold exactly the four given tables |
| Managers.MoviesDatasetManager.FromTables | tf_idf/managers.py:39-58 | a missing table is rejected with its own message, checked in the order movies, tags, ratings, users; construction succeeds exactly when all four are present, and the fresh manager holds exactly them |
| Seqs.UniqueMembers | tf_idf/managers.py:160-161 | `unique()` has no duplicates, contains every input value and nothing else |
| Seqs.UniqueKeepsFirstOccurrenceOrder | tf_idf/managers.py:160-161 | `unique()` lists values in the order of their first occurrence |
| Managers.VocabularyIsFirstSeenTags | tf_idf/managers.py:160 | the tag vocabulary is duplicate-free, holds every tag of the tag table and only those, in first-use order |
| Managers.MovieListIsFirstSeenIds | tf_idf/managers.py:161 | the movie list is duplicate-free, holds every movie id and only those, in first-appearance order |
| Managers.ItemsTaggedMembers | tf_idf/managers.py:169 | the `tag == t` filter of the tag table yields exactly the items of the rows tagged `t` |
| Managers.DocFreqBounds | tf_idf/managers.py:167-171 | for a vocabulary tag, 1 <= df(t) <= number of distinct tagged items, so the IDF quotient never divides by zero |
| Managers.DocFreqAtMostMovies | tf_idf/managers.py:164-171 | when every tagged item is a movie, df(t) <= n_movies and the IDF quotient n_movies / df(t) is at least 1 |
| Managers.TfRowSumCountsRows | tf_idf/managers.py:174-180 | summed over any duplicate-free tag sequence covering the table's tags, a movie's TF row equals the number of tag rows of that movie |
| Managers.TfRowSumIsTagCount | tf_idf/managers.py:174-180 | summed over the vocabulary, `tf[m][t]` equals the number of tag rows of movie `m` |
| Managers.RawTfIdfCell | tf_idf/managers.py:167-187 | every cell of the raw matrix is the count of (movie, tag) rows times `ln(n_movies / df(t))`, with df(t) >= 1; the matrix is n_movies by n_tags |
| Managers.NormalisedRowsSumToOne | tf_idf/managers.py:189-191 | after normalisation every non-empty row sums to 1, and each cell times the raw row sum gives back the raw cell |
| Managers.TwoMovieLabels | tf_idf/managers.py:160-161 | on a two-movie dataset (movie 1 tagged "x" twice, movie 2 tagged "y" once) the movie list is `[1, 2]` and the vocabulary `["x", "y"]` |
| Managers.TwoMovieDocFreqs | tf_idf/managers.py:167-171 | on that dataset each tag tags exactly one item |
| Managers.TwoMovieTermFreqs | tf_idf/managers.py:174-180 | on that dataset the term counts are 2 and 0 for movie 1, 0 and 1 for movie 2 |
| Managers.TwoMovieRawTfIdf | tf_idf/managers.py:167-187 | on that dataset both IDFs are `ln(2)` and the raw matrix is `[[2 ln 2, 0], [0, ln 2]]` |
| Managers.TwoMovieProductProfile | tf_idf/managers.py:189-191 | on that dataset, when `ln(2) != 0`, each movie's normalised row puts weight 1 on its own tag and 0 on the other |
| Managers.RatingsOfPairMembers | tf_idf/managers.py:201 | the (movie, user) filter is empty exactly when no row rates that pair, and yields only ratings of such rows |
| Managers.RatingsOfPairCountAndSum | tf_idf/managers.py:201 | the (movie, user) filter yields one rating per row of that pair, and its ratings add up to the total of those rows' ratings |
| Managers.UserRatingToMovieIsMean | tf_idf/managers.py:199-207 | `__user_rating_to_movie` is 0.0 when no row rates the pair, and otherwise the total of that pair's ratings divided by the number of its rows |
| Managers.UserRatingToMovieOnScale | tf_idf/managers.py:199-207 | a user's rating of a movie is 0.0 when no row rates that pair, and otherwise a mean that lies on the rating scale |
| Managers.RatingsByEmpty | tf_idf/managers.py:218 | a user's ratings are empty exactly when no rating row is that user's |
| Managers.RatingsByCountAndSum | tf_idf/managers.py:218 | the user filter yields one rating per row of that user, and its ratings add up to the total of those rows' ratings |
| Managers.AvgRatingIsMean | tf_idf/managers.py:218 | a user's entry of `r_avg_user` is the total of their rows' ratings divided by the number of those rows |
| Managers.AvgRatingOnScale | tf_idf/managers.py:218 | when every rating lies on a scale `[lo, hi]`, the mean of a user with at least one rating lies on it too |
| Managers.DeviationCell | tf_idf/managers.py:217-233 | `w_up[m][i]` is the user's rating of the movie minus the user's mean rating, and that mean is defined |
| Managers.UserProfileCell | tf_idf/managers.py:217-243 | a user-profile cell is the tag column weighted by the user's ratings `r_up[:, i]`, minus `r_avg_user[i]` times the tag column's total weight |
| Managers.SumOfColumnDots | tf_idf/managers.py:237-243 | summing a user's dot products over the tags equals the dot product of the product profile's row sums with the user's deviations |
| Managers.UserProfileRowSum | tf_idf/managers.py:237-243 | when every product-profile row sums to 1, a user-profile row sums to the user's total deviation over all movies |
| Managers.MoviesDatasetManager.BuildProductProfiles | tf_idf/managers.py:158-196 | fails with a log-domain error when there are tags but no movies, an axis error when there are neither, and a feature-count rejection when there are movies but no tags; otherwise returns the movies-by-vocabulary table of row-normalised TF-IDF weights, every row summing to 1 |
| Managers.MoviesDatasetManager.BuildUserProfiles | tf_idf/managers.py:209-248 | rejects an empty user list as ragged data; otherwise returns the users-by-vocabulary table whose cells are dot products of product-profile columns and deviation columns |
| Managers.MoviesDatasetManager.BuildProfiles | tf_idf/managers.py:250-258 | succeeds exactly when movies, tags and users are all non-empty, with each failure case named; both profiles have the vocabulary as columns, the user profile is computed from the product profile's values, product rows sum to 1, and each user row sums to that user's total deviation |
| Utils.SetColumn | tf_idf/utils.py:40 | assigning a column keeps the row labels and the shape; an existing column label keeps the labels and overwrites the cells of every column with that label; a new label is appended as the last column, each row getting its value at the end |
| Utils.AppendColumns | tf_idf/utils.py:39-40 | the loop over the extra columns, when it succeeds, keeps the row labels and the shape; it fails only with the column-length error |
| Utils.AppendColumnsSucceeds | tf_idf/utils.py:39-40 | appending extra columns succeeds exactly when every extra column has one value per row, and keeps the row labels; otherwise it fails with the length error |
| Utils.AppendFreshColumnsResult | tf_idf/utils.py:39-43 | with fresh, distinct extra column names and one value per row, the loop yields exactly the table with the extra columns placed after the existing ones, row by row |
| Utils.AppendFreshColumns | tf_idf/utils.py:39-43 | fresh, distinct extra columns end up after the feature columns in key order, with the row labels unchanged |
| Utils.AppendFreshColumnsCells | tf_idf/utils.py:39-43 | under the same conditions every row keeps its feature cells, followed by its value from each extra column in key order |
| Utils.BuildMatrix | tf_idf/utils.py:17-43 | no feature labels is rejected; no data or a row of the wrong width is rejected; an empty or uneven extra-column map is rejected; otherwise the table has the sample labels as rows and the feature labels as columns with the data as cells, extended by the extra columns; every rejection happens before a table is returned |

## Left out

- Loading from CSV files (`from_csv_folder` and the `__load_*_from_file` helpers, tf_idf/managers.py:95-150) is file I/O.
- Pickle persistence (`save_dataset`, `load_dataset`, `from_dataset_file` and the `dataset_path` branch of the constructor, tf_idf/managers.py:22-37, 60-93) is I/O against an opaque format.
- tf_idf/model.py, main.py and the measures package are not part of this model.
- `math.log` is the parameter `ln`, not a logarithm. Floating-point arithmetic is modelled by exact reals, so rounding is not modelled.
- Managers.MoviesDatasetManager.BuildProductProfiles: requires that no raw TF-IDF row sums to zero. Dividing such a row by its sum makes numpy produce NaN or infinite cells: 0/0 gives NaN and x/0 gives ±inf. A row can sum to zero with non-zero cells, because an IDF is negative when a tag tags more items than there are movies. Those non-finite cells are not modelled.
- Managers.MoviesDatasetManager.BuildUserProfiles: requires that every user has at least one rating, because pandas' mean of an empty column is NaN. It also requires a product-profile matrix of movies by vocabulary with both dimensions non-empty, which is what `build_profiles` passes.
- Managers.MoviesDatasetManager.BuildProfiles: carries both of these preconditions. It requires every user to have rated only when movies and tags are both present, because otherwise the product profile fails before any user mean is taken.
- Utils.BuildMatrix: requires one sample label per data row once the feature labels and the data have passed their own checks. pandas raises its own error when the labels do not match, and that error is not modelled. The feature and data rejections hold whatever the number of labels.
- Extra columns are a sequence of (name, values) pairs in the dict's key order. `df[c] =` overwrites every column named `c` and otherwise appends one. pandas' index alignment of `pd.Series(..., index=df.index)` is not modelled beyond the length check.
