/** `MoviesDatasetManager` of tf_idf/managers.py: the four dataset tables and the
    profile builders (TF-IDF product profile, rating-deviation user profile). */
module Managers {
  import opened Wrappers
  import opened Seqs
  import opened Utils

  // ---------------------------------------------------------------- tables

  /** A row of the movies table (`iditem`, `title`). */
  datatype Movie = Movie(id: int, title: string)
  /** A row of the tags table (`iditem`, `tag`); a pair may occur several times. */
  datatype TagRow = TagRow(item: int, tag: string)
  /** A row of the ratings table (`iduser`, `iditem`, `rating`). */
  datatype Rating = Rating(user: int, item: int, rating: real)
  /** A row of the users table (`iduser`, `username`). */
  datatype User = User(id: int, username: string)

  function MovieIds(movies: seq<Movie>): (ids: seq<int>)
    ensures |ids| == |movies| && forall i :: 0 <= i < |movies| ==> ids[i] == movies[i].id
  {
    seq(|movies|, i requires 0 <= i < |movies| => movies[i].id)
  }

  function TagNames(tags: seq<TagRow>): (names: seq<string>)
    ensures |names| == |tags| && forall i :: 0 <= i < |tags| ==> names[i] == tags[i].tag
  {
    seq(|tags|, i requires 0 <= i < |tags| => tags[i].tag)
  }

  function TaggedItems(tags: seq<TagRow>): (ids: seq<int>)
    ensures |ids| == |tags| && forall i :: 0 <= i < |tags| ==> ids[i] == tags[i].item
  {
    seq(|tags|, i requires 0 <= i < |tags| => tags[i].item)
  }

  function UserIds(users: seq<User>): (ids: seq<int>)
    ensures |ids| == |users| && forall i :: 0 <= i < |users| ==> ids[i] == users[i].id
  {
    seq(|users|, i requires 0 <= i < |users| => users[i].id)
  }

  /** `unique_tags`: the tag vocabulary, the columns of both profiles. */
  function Vocabulary(tags: seq<TagRow>): seq<string> {
    Unique(TagNames(tags))
  }

  /** `unique_movies`: the rows of the product profile. */
  function MovieList(movies: seq<Movie>): seq<int> {
    Unique(MovieIds(movies))
  }

  /** `unique_users`: the rows of the user profile. */
  function UserList(users: seq<User>): seq<int> {
    Unique(UserIds(users))
  }

  /** The vocabulary holds every tag of the table once, in order of first use. */
  lemma VocabularyIsFirstSeenTags(tags: seq<TagRow>)
    ensures Distinct(Vocabulary(tags))
    ensures forall k :: 0 <= k < |tags| ==> tags[k].tag in Vocabulary(tags)
    ensures forall j :: 0 <= j < |Vocabulary(tags)| ==> Vocabulary(tags)[j] in TagNames(tags)
    ensures forall i, j :: 0 <= i < j < |Vocabulary(tags)| ==>
              FirstIndex(TagNames(tags), Vocabulary(tags)[i]) < FirstIndex(TagNames(tags), Vocabulary(tags)[j])
  {
    var names := TagNames(tags);
    assert forall k :: 0 <= k < |tags| ==> tags[k].tag == names[k];
    UniqueMembers(names);
    UniqueKeepsFirstOccurrenceOrder(names);
  }

  /** The movie list holds every movie id once, in order of first appearance. */
  lemma MovieListIsFirstSeenIds(movies: seq<Movie>)
    ensures Distinct(MovieList(movies))
    ensures forall k :: 0 <= k < |movies| ==> movies[k].id in MovieList(movies)
    ensures forall j :: 0 <= j < |MovieList(movies)| ==> MovieList(movies)[j] in MovieIds(movies)
    ensures forall i, j :: 0 <= i < j < |MovieList(movies)| ==>
              FirstIndex(MovieIds(movies), MovieList(movies)[i]) < FirstIndex(MovieIds(movies), MovieList(movies)[j])
  {
    var ids := MovieIds(movies);
    assert forall k :: 0 <= k < |movies| ==> movies[k].id == ids[k];
    UniqueMembers(ids);
    UniqueKeepsFirstOccurrenceOrder(ids);
  }

  // ---------------------------------------------------------------- TF-IDF

  /** `df_tags.loc[df_tags['tag'] == t, 'iditem']`: the items tagged `t`, one per row. */
  function ItemsTagged(tags: seq<TagRow>, t: string): seq<int> {
    if |tags| == 0 then []
    else if tags[0].tag == t then [tags[0].item] + ItemsTagged(tags[1..], t)
    else ItemsTagged(tags[1..], t)
  }

  /** The items tagged `t` are exactly the items of the rows with tag `t`. */
  lemma {:induction false} ItemsTaggedMembers(tags: seq<TagRow>, t: string)
    ensures forall k :: 0 <= k < |tags| && tags[k].tag == t ==> tags[k].item in ItemsTagged(tags, t)
    ensures forall x :: x in ItemsTagged(tags, t) ==> exists k :: 0 <= k < |tags| && tags[k] == TagRow(x, t)
  {
    if |tags| > 0 {
      ItemsTaggedMembers(tags[1..], t);
      assert forall k :: 1 <= k < |tags| ==> tags[k] == tags[1..][k - 1];
    }
  }

  /** Document frequency: the number of distinct items the tag table tags with `t`. */
  function DocFreq(tags: seq<TagRow>, t: string): nat {
    |Unique(ItemsTagged(tags, t))|
  }

  /** A tag of the vocabulary tags at least one item and at most every tagged item, so the
      IDF quotient never divides by zero. */
  lemma DocFreqBounds(tags: seq<TagRow>, t: string)
    requires t in TagNames(tags)
    ensures 1 <= DocFreq(tags, t) <= |Unique(TaggedItems(tags))|
  {
    var k :| 0 <= k < |tags| && TagNames(tags)[k] == t;
    var items := ItemsTagged(tags, t);
    ItemsTaggedMembers(tags, t);
    assert tags[k].item in items;
    UniqueMembers(items);
    var u := Unique(items);
    assert u != [] by {
      var i :| 0 <= i < |items| && items[i] == tags[k].item;
    }
    forall x | x in u
      ensures x in TaggedItems(tags)
    {
      var i :| 0 <= i < |u| && u[i] == x;
      var row :| 0 <= row < |tags| && tags[row] == TagRow(x, t);
      assert TaggedItems(tags)[row] == x;
    }
    DistinctSubsetNoLonger(u, TaggedItems(tags));
  }

  /** When every tagged item is a movie of the movies table, a vocabulary tag tags at most
      every movie, so the IDF quotient is at least one. */
  lemma DocFreqAtMostMovies(movies: seq<Movie>, tags: seq<TagRow>, t: string)
    requires t in TagNames(tags)
    requires forall k :: 0 <= k < |tags| ==> tags[k].item in MovieIds(movies)
    ensures 1 <= DocFreq(tags, t) <= |MovieList(movies)|
    ensures (|MovieList(movies)| as real) / (DocFreq(tags, t) as real) >= 1.0
  {
    DocFreqBounds(tags, t);
    var items := ItemsTagged(tags, t);
    ItemsTaggedMembers(tags, t);
    UniqueMembers(items);
    var u := Unique(items);
    forall x | x in u
      ensures x in MovieIds(movies)
    {
      var i :| 0 <= i < |u| && u[i] == x;
      var row :| 0 <= row < |tags| && tags[row] == TagRow(x, t);
    }
    DistinctSubsetNoLonger(u, MovieIds(movies));
    QuotientAtLeastOne(|MovieList(movies)|, DocFreq(tags, t));
  }

  lemma QuotientAtLeastOne(n: nat, d: nat)
    requires 1 <= d <= n
    ensures (n as real) / (d as real) >= 1.0
  {
  }

  /** `idf(t) = ln(n_movies / df(t))`; `ln` stands for `math.log`. */
  function IdfOf(tags: seq<TagRow>, nMovies: nat, t: string, ln: real -> real): real
    requires t in TagNames(tags)
  {
    DocFreqBounds(tags, t);
    ln((nMovies as real) / (DocFreq(tags, t) as real))
  }

  /** The IDF vector over the tag sequence `v` (the vocabulary). */
  function Idf(nMovies: nat, tags: seq<TagRow>, v: seq<string>, ln: real -> real): (idf: seq<real>)
    requires forall j :: 0 <= j < |v| ==> v[j] in TagNames(tags)
    ensures |idf| == |v|
  {
    seq(|v|, j requires 0 <= j < |v| => IdfOf(tags, nMovies, v[j], ln))
  }

  /** Term frequency: the number of tag rows that tag item `m` with `t`. */
  function TermFreq(tags: seq<TagRow>, m: int, t: string): nat {
    if |tags| == 0 then 0
    else (if tags[0] == TagRow(m, t) then 1 else 0) + TermFreq(tags[1..], m, t)
  }

  /** The number of tag rows of item `m`, whatever the tag. */
  function TagCount(tags: seq<TagRow>, m: int): nat {
    if |tags| == 0 then 0
    else (if tags[0].item == m then 1 else 0) + TagCount(tags[1..], m)
  }

  /** The TF row of item `m` over the tag sequence `v`. */
  function TfRow(tags: seq<TagRow>, m: int, v: seq<string>): (row: seq<real>)
    ensures |row| == |v|
  {
    seq(|v|, j requires 0 <= j < |v| => TermFreq(tags, m, v[j]) as real)
  }

  /** Summed over a distinct tag sequence holding every tag of the table, the TF row of an
      item counts every tag row of that item exactly once. */
  lemma {:induction false} TfRowSumCountsRows(tags: seq<TagRow>, m: int, v: seq<string>)
    requires Distinct(v)
    requires forall k :: 0 <= k < |tags| ==> tags[k].tag in v
    ensures Sum(TfRow(tags, m, v)) == TagCount(tags, m) as real
  {
    if |tags| == 0 {
      SumOfZeros(TfRow(tags, m, v));
    } else {
      var rest := tags[1..];
      assert forall k :: 0 <= k < |rest| ==> rest[k] == tags[k + 1];
      TfRowSumCountsRows(rest, m, v);
      var first := seq(|v|, j requires 0 <= j < |v| => if tags[0] == TagRow(m, v[j]) then 1.0 else 0.0);
      SumPointwiseAdd(first, TfRow(rest, m, v), TfRow(tags, m, v));
      if tags[0].item == m {
        SumOfIndicator(v, tags[0].tag, first);
      } else {
        SumOfZeros(first);
      }
    }
  }

  /** `tf[m][t]` over the whole vocabulary sums to the number of tag rows of movie `m`. */
  lemma TfRowSumIsTagCount(tags: seq<TagRow>, m: int)
    ensures Sum(TfRow(tags, m, Vocabulary(tags))) == TagCount(tags, m) as real
  {
    VocabularyIsFirstSeenTags(tags);
    TfRowSumCountsRows(tags, m, Vocabulary(tags));
  }

  /** The TF matrix: one row per movie of `ms`, one column per tag of `v`. */
  function Tf(ms: seq<int>, tags: seq<TagRow>, v: seq<string>): (tf: seq<seq<real>>)
    ensures |tf| == |ms|
    ensures forall i :: 0 <= i < |tf| ==> |tf[i]| == |v|
  {
    seq(|ms|, i requires 0 <= i < |ms| => TfRow(tags, ms[i], v))
  }

  /** `np.multiply(tf[i, :], idf)` for every row `i`. */
  function Weigh(tf: seq<seq<real>>, idf: seq<real>): (w: seq<seq<real>>)
    requires forall i :: 0 <= i < |tf| ==> |tf[i]| == |idf|
    ensures |w| == |tf| && forall i :: 0 <= i < |tf| ==> |w[i]| == |idf|
  {
    seq(|tf|, i requires 0 <= i < |tf| =>
      seq(|idf|, j requires 0 <= j < |idf| => tf[i][j] * idf[j]))
  }

  lemma WeighCell(tf: seq<seq<real>>, idf: seq<real>, i: nat, j: nat, a: real, b: real)
    requires forall i :: 0 <= i < |tf| ==> |tf[i]| == |idf|
    requires i < |tf| && j < |idf| && tf[i][j] == a && idf[j] == b
    ensures Weigh(tf, idf)[i][j] == a * b
  {
  }

  /** The raw TF-IDF matrix of the dataset. */
  function RawTfIdf(movies: seq<Movie>, tags: seq<TagRow>, ln: real -> real): (w: seq<seq<real>>)
    ensures |w| == |MovieList(movies)|
    ensures forall i :: 0 <= i < |w| ==> |w[i]| == |Vocabulary(tags)|
  {
    var v := Vocabulary(tags);
    UniqueMembers(TagNames(tags));
    Weigh(Tf(MovieList(movies), tags, v), Idf(|MovieList(movies)|, tags, v, ln))
  }

  /** Every non-empty row has a non-zero sum. Otherwise the division yields NaN or infinite
      cells: 0/0 gives NaN and x/0 gives ±inf. A negative IDF can cancel a positive one, so a
      row of non-zero cells may still sum to zero. */
  predicate NoZeroRow(w: seq<seq<real>>) {
    forall i :: 0 <= i < |w| && |w[i]| > 0 ==> Sum(w[i]) != 0.0
  }

  /** `tf_idf / sum_of_rows[:, np.newaxis]`: every row divided by its own sum. */
  function Normalise(w: seq<seq<real>>): (n: seq<seq<real>>)
    requires NoZeroRow(w)
    ensures |n| == |w| && forall i :: 0 <= i < |w| ==> |n[i]| == |w[i]|
  {
    seq(|w|, i requires 0 <= i < |w| =>
      seq(|w[i]|, j requires 0 <= j < |w[i]| => w[i][j] / Sum(w[i])))
  }

  /** After normalisation every non-empty row sums to one. */
  lemma NormalisedRowsSumToOne(w: seq<seq<real>>)
    requires NoZeroRow(w)
    ensures forall i :: 0 <= i < |w| && |w[i]| > 0 ==> Sum(Normalise(w)[i]) == 1.0
    ensures forall i, j :: 0 <= i < |w| && 0 <= j < |w[i]| ==> Normalise(w)[i][j] * Sum(w[i]) == w[i][j]
  {
    forall i | 0 <= i < |w| && |w[i]| > 0
      ensures Sum(Normalise(w)[i]) == 1.0
    {
      SumScaled(w[i], Normalise(w)[i], Sum(w[i]));
    }
  }

  lemma TfCell(ms: seq<int>, tags: seq<TagRow>, v: seq<string>, i: nat, j: nat)
    requires i < |ms| && j < |v|
    ensures Tf(ms, tags, v)[i][j] == TermFreq(tags, ms[i], v[j]) as real
  {
  }

  lemma IdfCell(tags: seq<TagRow>, v: seq<string>, n: nat, ln: real -> real, j: nat)
    requires forall j :: 0 <= j < |v| ==> v[j] in TagNames(tags)
    requires j < |v|
    ensures 1 <= DocFreq(tags, v[j])
    ensures Idf(n, tags, v, ln)[j] == ln((n as real) / (DocFreq(tags, v[j]) as real))
  {
    DocFreqBounds(tags, v[j]);
    assert Idf(n, tags, v, ln)[j] == IdfOf(tags, n, v[j], ln);
  }

  lemma WeighedTfIdfCell(ms: seq<int>, tags: seq<TagRow>, v: seq<string>, n: nat, ln: real -> real,
                         i: nat, j: nat, d: nat)
    requires forall j :: 0 <= j < |v| ==> v[j] in TagNames(tags)
    requires i < |ms| && j < |v|
    requires d == DocFreq(tags, v[j]) && d >= 1
    ensures Weigh(Tf(ms, tags, v), Idf(n, tags, v, ln))[i][j] ==
              (TermFreq(tags, ms[i], v[j]) as real) * ln((n as real) / (d as real))
  {
    var tf := Tf(ms, tags, v);
    var idf := Idf(n, tags, v, ln);
    TfCell(ms, tags, v, i, j);
    IdfCell(tags, v, n, ln, j);
    WeighCell(tf, idf, i, j, TermFreq(tags, ms[i], v[j]) as real, ln((n as real) / (d as real)));
  }

  /** A cell of the weighted matrix is the tag count times the tag's IDF. */
  lemma TfIdfCell(ms: seq<int>, tags: seq<TagRow>, v: seq<string>, n: nat, ln: real -> real, i: nat, j: nat)
    requires forall j :: 0 <= j < |v| ==> v[j] in TagNames(tags)
    requires i < |ms| && j < |v|
    ensures 1 <= DocFreq(tags, v[j])
    ensures Weigh(Tf(ms, tags, v), Idf(n, tags, v, ln))[i][j] ==
              (TermFreq(tags, ms[i], v[j]) as real) * ln((n as real) / (DocFreq(tags, v[j]) as real))
  {
    DocFreqBounds(tags, v[j]);
    WeighedTfIdfCell(ms, tags, v, n, ln, i, j, DocFreq(tags, v[j]));
  }

  /** Every cell of the raw matrix is the tag count times the tag's IDF, whose quotient
      has a non-zero divisor. */
  lemma RawTfIdfCell(movies: seq<Movie>, tags: seq<TagRow>, ln: real -> real, i: nat, j: nat)
    requires i < |MovieList(movies)| && j < |Vocabulary(tags)|
    ensures 1 <= DocFreq(tags, Vocabulary(tags)[j])
    ensures RawTfIdf(movies, tags, ln)[i][j] ==
              (TermFreq(tags, MovieList(movies)[i], Vocabulary(tags)[j]) as real) *
              ln((|MovieList(movies)| as real) / (DocFreq(tags, Vocabulary(tags)[j]) as real))
  {
    var ms := MovieList(movies);
    var v := Vocabulary(tags);
    VocabularyTagged(tags);
    assert RawTfIdf(movies, tags, ln) == Weigh(Tf(ms, tags, v), Idf(|ms|, tags, v, ln));
    TfIdfCell(ms, tags, v, |ms|, ln, i, j);
  }

  lemma VocabularyTagged(tags: seq<TagRow>)
    ensures forall j :: 0 <= j < |Vocabulary(tags)| ==> Vocabulary(tags)[j] in TagNames(tags)
  {
    UniqueMembers(TagNames(tags));
  }


  /** A two-movie dataset: movie 1 tagged "x" twice, movie 2 tagged "y" once. */
  const TwoMovies: seq<Movie> := [Movie(1, "A"), Movie(2, "B")]
  const TwoMovieTags: seq<TagRow> := [TagRow(1, "x"), TagRow(1, "x"), TagRow(2, "y")]

  /** Its row and column labels. */
  lemma TwoMovieLabels()
    ensures MovieList(TwoMovies) == [1, 2]
    ensures Vocabulary(TwoMovieTags) == ["x", "y"]
  {
    var ids := MovieIds(TwoMovies);
    assert ids == [1, 2] && ids[..1] == [1] && ids[..1][..0] == [];
    var names := TagNames(TwoMovieTags);
    assert names == ["x", "x", "y"];
    assert names[..1] == ["x"] && names[..2] == ["x", "x"] && names[..1][..0] == [];
    assert Unique(names[..1]) == ["x"];
    assert Unique(names[..2]) == ["x"];
  }

  /** Each tag tags one movie of two. */
  lemma TwoMovieDocFreqs()
    ensures DocFreq(TwoMovieTags, "x") == 1 && DocFreq(TwoMovieTags, "y") == 1
  {
    assert ItemsTagged(TwoMovieTags, "x") == [1, 1];
    assert [1, 1][..1] == [1] && [1, 1][..1][..0] == [];
    assert ItemsTagged(TwoMovieTags, "y") == [2];
    assert [2][..0] == [];
  }

  /** Movie 1 carries "x" twice, movie 2 carries "y" once. */
  lemma TwoMovieTermFreqs()
    ensures TermFreq(TwoMovieTags, 1, "x") == 2 && TermFreq(TwoMovieTags, 1, "y") == 0
    ensures TermFreq(TwoMovieTags, 2, "x") == 0 && TermFreq(TwoMovieTags, 2, "y") == 1
  {
    var rest := TwoMovieTags[1..];
    assert rest == [TagRow(1, "x"), TagRow(2, "y")];
    assert rest[1..] == [TagRow(2, "y")] && rest[1..][1..] == [];
  }

  /** Its raw TF-IDF matrix: both IDFs are `ln(2)`, and the term counts weight them. */
  lemma TwoMovieRawTfIdf(ln: real -> real)
    ensures RawTfIdf(TwoMovies, TwoMovieTags, ln) == [[2.0 * ln(2.0), 0.0], [0.0, ln(2.0)]]
  {
    TwoMovieLabels();
    TwoMovieDocFreqs();
    TwoMovieTermFreqs();
    var raw := RawTfIdf(TwoMovies, TwoMovieTags, ln);
    assert (2 as real) / (1 as real) == 2.0;
    RawTfIdfCell(TwoMovies, TwoMovieTags, ln, 0, 0);
    assert raw[0][0] == 2.0 * ln(2.0);
    RawTfIdfCell(TwoMovies, TwoMovieTags, ln, 0, 1);
    assert raw[0][1] == 0.0;
    RawTfIdfCell(TwoMovies, TwoMovieTags, ln, 1, 0);
    assert raw[1][0] == 0.0;
    RawTfIdfCell(TwoMovies, TwoMovieTags, ln, 1, 1);
    assert raw[1][1] == ln(2.0);
    TwoByTwo(raw, 2.0 * ln(2.0), 0.0, 0.0, ln(2.0));
  }

  lemma TwoByTwo(w: seq<seq<real>>, a: real, b: real, c: real, d: real)
    requires |w| == 2 && |w[0]| == 2 && |w[1]| == 2
    requires w[0][0] == a && w[0][1] == b && w[1][0] == c && w[1][1] == d
    ensures w == [[a, b], [c, d]]
  {
    assert w[0] == [a, b] && w[1] == [c, d];
  }

  /** Each movie's normalised profile puts all its weight on its own tag. */
  lemma TwoMovieProductProfile(ln: real -> real)
    requires ln(2.0) != 0.0
    ensures NoZeroRow(RawTfIdf(TwoMovies, TwoMovieTags, ln))
    ensures Normalise(RawTfIdf(TwoMovies, TwoMovieTags, ln)) == [[1.0, 0.0], [0.0, 1.0]]
  {
    TwoMovieRawTfIdf(ln);
    DiagonalNormalise(RawTfIdf(TwoMovies, TwoMovieTags, ln), ln(2.0));
  }

  lemma DiagonalNormalise(w: seq<seq<real>>, a: real)
    requires a != 0.0 && w == [[2.0 * a, 0.0], [0.0, a]]
    ensures NoZeroRow(w) && Normalise(w) == [[1.0, 0.0], [0.0, 1.0]]
  {
    assert w[0][1..] == [0.0] && w[1][1..] == [a] && [0.0][1..] == [] && [a][1..] == [];
    assert Sum(w[0]) == 2.0 * a;
    assert Sum(w[1]) == a;
    var n := Normalise(w);
    assert n[0][0] == (2.0 * a) / (2.0 * a) == 1.0;
    assert n[1][1] == a / a == 1.0;
    assert n[0][0] == 1.0 && n[0][1] == 0.0 && n[1][0] == 0.0 && n[1][1] == 1.0;
    TwoByTwo(n, 1.0, 0.0, 0.0, 1.0);
  }

  // ---------------------------------------------------------------- ratings

  /** The `rating` column of the rows `keep` selects, in table order: `df_ratings.loc[mask]['rating']`. */
  function RatingsWhere(ratings: seq<Rating>, keep: Rating -> bool): seq<real> {
    if |ratings| == 0 then []
    else if keep(ratings[0]) then [ratings[0].rating] + RatingsWhere(ratings[1..], keep)
    else RatingsWhere(ratings[1..], keep)
  }

  /** The positions of the rows `keep` selects. */
  function RowsWhere(ratings: seq<Rating>, keep: Rating -> bool): set<int> {
    set k | 0 <= k < |ratings| && keep(ratings[k])
  }

  /** The `rating` column with every row `keep` rejects set to 0.0. */
  function MaskedRatings(ratings: seq<Rating>, keep: Rating -> bool): seq<real> {
    seq(|ratings|, k requires 0 <= k < |ratings| => if keep(ratings[k]) then ratings[k].rating else 0.0)
  }

  /** Filtering a concatenation filters each part. */
  lemma {:induction false} RatingsWhereAppend(a: seq<Rating>, b: seq<Rating>, keep: Rating -> bool)
    ensures RatingsWhere(a + b, keep) == RatingsWhere(a, keep) + RatingsWhere(b, keep)
  {
    if |a| == 0 {
      assert a + b == b;
    } else {
      assert (a + b)[1..] == a[1..] + b;
      RatingsWhereAppend(a[1..], b, keep);
      if keep(a[0]) {
        ConcatAssoc([a[0].rating], RatingsWhere(a[1..], keep), RatingsWhere(b, keep));
      }
    }
  }

  /** The filter yields one rating per selected row. */
  lemma {:induction false} RatingsWhereCount(ratings: seq<Rating>, keep: Rating -> bool)
    ensures |RatingsWhere(ratings, keep)| == |RowsWhere(ratings, keep)|
    decreases |ratings|
  {
    if |ratings| == 0 {
      assert RowsWhere(ratings, keep) == {};
    } else {
      var n := |ratings| - 1;
      var init := ratings[..n];
      assert ratings == init + [ratings[n]];
      RatingsWhereAppend(init, [ratings[n]], keep);
      RatingsWhereCount(init, keep);
      assert [ratings[n]][1..] == [];
      assert n !in RowsWhere(init, keep);
      if keep(ratings[n]) {
        assert RowsWhere(ratings, keep) == RowsWhere(init, keep) + {n};
      } else {
        assert RowsWhere(ratings, keep) == RowsWhere(init, keep);
      }
    }
  }

  /** The filtered ratings add up to the masked rating column. */
  lemma {:induction false} RatingsWhereSum(ratings: seq<Rating>, keep: Rating -> bool)
    ensures Sum(RatingsWhere(ratings, keep)) == Sum(MaskedRatings(ratings, keep))
  {
    if |ratings| > 0 {
      RatingsWhereSum(ratings[1..], keep);
      assert MaskedRatings(ratings, keep)[1..] == MaskedRatings(ratings[1..], keep);
      if keep(ratings[0]) {
        var rest := RatingsWhere(ratings[1..], keep);
        assert ([ratings[0].rating] + rest)[1..] == rest;
      }
    }
  }

  /** The filter is empty exactly when it selects no row, and each of its ratings is the
      rating of a selected row. */
  lemma {:induction false} RatingsWhereMembers(ratings: seq<Rating>, keep: Rating -> bool)
    ensures |RatingsWhere(ratings, keep)| == 0 <==> forall k :: 0 <= k < |ratings| ==> !keep(ratings[k])
    ensures forall i :: 0 <= i < |RatingsWhere(ratings, keep)| ==>
              exists k :: 0 <= k < |ratings| && keep(ratings[k]) && ratings[k].rating == RatingsWhere(ratings, keep)[i]
  {
    if |ratings| > 0 {
      RatingsWhereMembers(ratings[1..], keep);
      assert forall k :: 1 <= k < |ratings| ==> ratings[k] == ratings[1..][k - 1];
      var rest := RatingsWhere(ratings[1..], keep);
      if keep(ratings[0]) {
        assert forall i :: 1 <= i < |rest| + 1 ==> RatingsWhere(ratings, keep)[i] == rest[i - 1];
      }
    }
  }

  /** The rows of user `u`. */
  function ByUser(u: int): Rating -> bool {
    (r: Rating) => r.user == u
  }

  /** The rows in which user `u` rates movie `m`. */
  function ByPair(m: int, u: int): Rating -> bool {
    (r: Rating) => r.item == m && r.user == u
  }

  /** `df_ratings.loc[df_ratings['iduser'] == u]['rating']`. */
  function RatingsBy(ratings: seq<Rating>, u: int): seq<real> {
    RatingsWhere(ratings, ByUser(u))
  }

  /** A user's ratings are empty exactly when no rating row is theirs. */
  lemma RatingsByEmpty(ratings: seq<Rating>, u: int)
    ensures |RatingsBy(ratings, u)| == 0 <==> forall k :: 0 <= k < |ratings| ==> ratings[k].user != u
  {
    RatingsWhereMembers(ratings, ByUser(u));
  }

  /** A user's ratings hold one entry per rating row of that user and add up to the total of
      those rows' ratings. */
  lemma RatingsByCountAndSum(ratings: seq<Rating>, u: int)
    ensures |RatingsBy(ratings, u)| == |set k | 0 <= k < |ratings| && ratings[k].user == u|
    ensures Sum(RatingsBy(ratings, u)) ==
            Sum(seq(|ratings|, k requires 0 <= k < |ratings| => if ratings[k].user == u then ratings[k].rating else 0.0))
  {
    RatingsWhereCount(ratings, ByUser(u));
    RatingsWhereSum(ratings, ByUser(u));
    assert RowsWhere(ratings, ByUser(u)) == set k | 0 <= k < |ratings| && ratings[k].user == u;
    assert MaskedRatings(ratings, ByUser(u)) ==
           seq(|ratings|, k requires 0 <= k < |ratings| => if ratings[k].user == u then ratings[k].rating else 0.0);
  }

  /** The ratings user `u` gave movie `m`. */
  function RatingsOfPair(ratings: seq<Rating>, m: int, u: int): seq<real> {
    RatingsWhere(ratings, ByPair(m, u))
  }

  /** The ratings of a pair are empty exactly when no row rates that pair, and each of them
      is the rating of some row of that pair. */
  lemma RatingsOfPairMembers(ratings: seq<Rating>, m: int, u: int)
    ensures |RatingsOfPair(ratings, m, u)| == 0 <==>
              forall k :: 0 <= k < |ratings| ==> !(ratings[k].item == m && ratings[k].user == u)
    ensures forall i :: 0 <= i < |RatingsOfPair(ratings, m, u)| ==>
              exists k :: 0 <= k < |ratings| && ratings[k] == Rating(u, m, RatingsOfPair(ratings, m, u)[i])
  {
    RatingsWhereMembers(ratings, ByPair(m, u));
  }

  /** The ratings of a pair hold one entry per row of that pair and add up to the total of
      those rows' ratings. */
  lemma RatingsOfPairCountAndSum(ratings: seq<Rating>, m: int, u: int)
    ensures |RatingsOfPair(ratings, m, u)| ==
            |set k | 0 <= k < |ratings| && ratings[k].item == m && ratings[k].user == u|
    ensures Sum(RatingsOfPair(ratings, m, u)) ==
            Sum(seq(|ratings|, k requires 0 <= k < |ratings| =>
                  if ratings[k].item == m && ratings[k].user == u then ratings[k].rating else 0.0))
  {
    RatingsWhereCount(ratings, ByPair(m, u));
    RatingsWhereSum(ratings, ByPair(m, u));
    assert RowsWhere(ratings, ByPair(m, u)) ==
           set k | 0 <= k < |ratings| && ratings[k].item == m && ratings[k].user == u;
    assert MaskedRatings(ratings, ByPair(m, u)) ==
           seq(|ratings|, k requires 0 <= k < |ratings| =>
             if ratings[k].item == m && ratings[k].user == u then ratings[k].rating else 0.0);
  }

  /** `__user_rating_to_movie`: 0.0 when `u` never rated `m`, else the mean of the ratings. */
  function UserRatingToMovie(ratings: seq<Rating>, m: int, u: int): real {
    var rs := RatingsOfPair(ratings, m, u);
    if |rs| < 1 then 0.0 else Mean(rs)
  }

  /** A user's rating of a movie is the total of the ratings of that pair's rows divided by
      their number, and 0.0 when there are none. */
  lemma UserRatingToMovieIsMean(ratings: seq<Rating>, m: int, u: int)
    ensures var rows := set k | 0 <= k < |ratings| && ratings[k].item == m && ratings[k].user == u;
            var total := Sum(seq(|ratings|, k requires 0 <= k < |ratings| =>
                               if ratings[k].item == m && ratings[k].user == u then ratings[k].rating else 0.0));
            (|rows| == 0 ==> UserRatingToMovie(ratings, m, u) == 0.0) &&
            (|rows| > 0 ==> UserRatingToMovie(ratings, m, u) == total / (|rows| as real))
  {
    RatingsOfPairCountAndSum(ratings, m, u);
  }

  /** With every rating on the scale `[lo, hi]`, a user's rating of a movie is 0.0 when there
      is no rating of that pair, and otherwise lies on the scale. */
  lemma UserRatingToMovieOnScale(ratings: seq<Rating>, m: int, u: int, lo: real, hi: real)
    requires forall k :: 0 <= k < |ratings| ==> lo <= ratings[k].rating <= hi
    ensures (forall k :: 0 <= k < |ratings| ==> !(ratings[k].item == m && ratings[k].user == u))
              ==> UserRatingToMovie(ratings, m, u) == 0.0
    ensures (exists k :: 0 <= k < |ratings| && ratings[k].item == m && ratings[k].user == u)
              ==> lo <= UserRatingToMovie(ratings, m, u) <= hi
  {
    var rs := RatingsOfPair(ratings, m, u);
    RatingsOfPairMembers(ratings, m, u);
    if |rs| > 0 {
      forall i | 0 <= i < |rs|
        ensures lo <= rs[i] <= hi
      {
        var k :| 0 <= k < |ratings| && ratings[k] == Rating(u, m, rs[i]);
      }
      MeanBetween(rs, lo, hi);
    }
  }

  /** Every user of the users table issued at least one rating (else the mean is NaN). */
  predicate EveryUserRated(users: seq<User>, ratings: seq<Rating>) {
    forall i :: 0 <= i < |users| ==> exists k :: 0 <= k < |ratings| && ratings[k].user == users[i].id
  }

  /** A user's mean rating over all the movies they rated. */
  function AvgRating(ratings: seq<Rating>, u: int): real
    requires |RatingsBy(ratings, u)| > 0
  {
    Mean(RatingsBy(ratings, u))
  }

  /** A user's mean rating is the total of their rows' ratings divided by the number of
      those rows. */
  lemma AvgRatingIsMean(ratings: seq<Rating>, u: int)
    requires |RatingsBy(ratings, u)| > 0
    ensures var rows := set k | 0 <= k < |ratings| && ratings[k].user == u;
            |rows| > 0 &&
            AvgRating(ratings, u) ==
              Sum(seq(|ratings|, k requires 0 <= k < |ratings| => if ratings[k].user == u then ratings[k].rating else 0.0))
                / (|rows| as real)
  {
    RatingsByCountAndSum(ratings, u);
  }

  /** With every rating on the scale `[lo, hi]`, the mean rating of a user with at least one
      rating lies on the scale. */
  lemma AvgRatingOnScale(ratings: seq<Rating>, u: int, lo: real, hi: real)
    requires forall k :: 0 <= k < |ratings| ==> lo <= ratings[k].rating <= hi
    requires exists k :: 0 <= k < |ratings| && ratings[k].user == u
    ensures |RatingsBy(ratings, u)| > 0 && lo <= AvgRating(ratings, u) <= hi
  {
    var rs := RatingsBy(ratings, u);
    RatingsByEmpty(ratings, u);
    RatingsWhereMembers(ratings, ByUser(u));
    forall i | 0 <= i < |rs|
      ensures lo <= rs[i] <= hi
    {
      var k :| 0 <= k < |ratings| && ByUser(u)(ratings[k]) && ratings[k].rating == rs[i];
    }
    MeanBetween(rs, lo, hi);
  }

  /** `r_avg_user`: the mean rating of every user of the user list. */
  function AvgRatings(users: seq<User>, ratings: seq<Rating>): (avg: seq<real>)
    requires EveryUserRated(users, ratings)
    ensures |avg| == |UserList(users)|
  {
    var us := UserList(users);
    UniqueMembers(UserIds(users));
    seq(|us|, k requires 0 <= k < |us| => UserMean(users, ratings, us[k]))
  }

  function UserMean(users: seq<User>, ratings: seq<Rating>, u: int): real
    requires EveryUserRated(users, ratings) && u in UserIds(users)
  {
    var i :| 0 <= i < |users| && UserIds(users)[i] == u;
    assert exists k :: 0 <= k < |ratings| && ratings[k].user == u;
    RatingsByEmpty(ratings, u);
    AvgRating(ratings, u)
  }

  /** `r_up`: movies by users, each user's rating of each movie (0.0 when none). */
  function RatingMatrix(movies: seq<Movie>, users: seq<User>, ratings: seq<Rating>): (r: seq<seq<real>>)
    ensures |r| == |MovieList(movies)|
    ensures forall i :: 0 <= i < |r| ==> |r[i]| == |UserList(users)|
  {
    var ms := MovieList(movies);
    var us := UserList(users);
    seq(|ms|, i requires 0 <= i < |ms| =>
      seq(|us|, k requires 0 <= k < |us| => UserRatingToMovie(ratings, ms[i], us[k])))
  }

  /** `w_up = r_up - r_avg_user`: every column minus its user's mean. */
  function Deviations(r: seq<seq<real>>, avg: seq<real>): (w: seq<seq<real>>)
    requires forall i :: 0 <= i < |r| ==> |r[i]| == |avg|
    ensures |w| == |r| && forall i :: 0 <= i < |w| ==> |w[i]| == |avg|
  {
    seq(|r|, i requires 0 <= i < |r| =>
      seq(|avg|, k requires 0 <= k < |avg| => r[i][k] - avg[k]))
  }

  /** `mat[:, j]`. */
  function Column(mat: seq<seq<real>>, j: nat): (col: seq<real>)
    requires forall i :: 0 <= i < |mat| ==> j < |mat[i]|
    ensures |col| == |mat| && forall i :: 0 <= i < |mat| ==> col[i] == mat[i][j]
  {
    seq(|mat|, i requires 0 <= i < |mat| => mat[i][j])
  }

  /** The user profile cells: `np.dot(tf_idf[:, j], w_up[:, i])` for user `i` and tag `j`. */
  function UserProfileData(p: seq<seq<real>>, w: seq<seq<real>>, nUsers: nat, nTags: nat): (d: seq<seq<real>>)
    requires |p| == |w|
    requires forall m :: 0 <= m < |p| ==> |p[m]| == nTags && |w[m]| == nUsers
    ensures |d| == nUsers && forall i :: 0 <= i < nUsers ==> |d[i]| == nTags
  {
    seq(nUsers, i requires 0 <= i < nUsers =>
      seq(nTags, j requires 0 <= j < nTags => Dot(Column(p, j), Column(w, i))))
  }

  /** The deviation matrix of the dataset. */
  function DatasetDeviations(movies: seq<Movie>, users: seq<User>, ratings: seq<Rating>): (w: seq<seq<real>>)
    requires EveryUserRated(users, ratings)
    ensures |w| == |MovieList(movies)|
    ensures forall m :: 0 <= m < |w| ==> |w[m]| == |UserList(users)|
  {
    Deviations(RatingMatrix(movies, users, ratings), AvgRatings(users, ratings))
  }

  /** A deviation cell is the user's rating of the movie minus the user's mean rating. */
  lemma DeviationCell(movies: seq<Movie>, users: seq<User>, ratings: seq<Rating>, m: nat, i: nat)
    requires EveryUserRated(users, ratings)
    requires m < |MovieList(movies)| && i < |UserList(users)|
    ensures |RatingsBy(ratings, UserList(users)[i])| > 0
    ensures DatasetDeviations(movies, users, ratings)[m][i] ==
              UserRatingToMovie(ratings, MovieList(movies)[m], UserList(users)[i]) -
              AvgRating(ratings, UserList(users)[i])
  {
    var u := UserList(users)[i];
    UniqueMembers(UserIds(users));
    var k :| 0 <= k < |users| && UserIds(users)[k] == u;
    RatingsByEmpty(ratings, u);
    assert AvgRatings(users, ratings)[i] == UserMean(users, ratings, u);
  }

  /** A user-profile cell over deviations from `avg` splits into the weighted ratings minus
      `avg` times the total weight. */
  lemma UserProfileCellSplit(p: seq<seq<real>>, w: seq<seq<real>>, r: seq<seq<real>>,
                             nUsers: nat, nTags: nat, i: nat, j: nat, avg: real)
    requires |p| == |w| == |r|
    requires forall m :: 0 <= m < |p| ==> |p[m]| == nTags && |w[m]| == nUsers && |r[m]| == nUsers
    requires i < nUsers && j < nTags
    requires forall m :: 0 <= m < |w| ==> w[m][i] == r[m][i] - avg
    ensures UserProfileData(p, w, nUsers, nTags)[i][j] == Dot(Column(p, j), Column(r, i)) - avg * Sum(Column(p, j))
  {
    DotOfDeviations(Column(p, j), Column(r, i), Column(w, i), avg);
  }

  /** A user-profile cell, expanded: the tag column weighted by the user's ratings, minus the
      user's entry of `r_avg_user` times the tag column's total weight. */
  lemma UserProfileCell(movies: seq<Movie>, users: seq<User>, ratings: seq<Rating>,
                        p: seq<seq<real>>, nTags: nat, i: nat, j: nat)
    requires EveryUserRated(users, ratings)
    requires |p| == |MovieList(movies)| && forall m :: 0 <= m < |p| ==> |p[m]| == nTags
    requires i < |UserList(users)| && j < nTags
    ensures UserProfileData(p, DatasetDeviations(movies, users, ratings), |UserList(users)|, nTags)[i][j] ==
              Dot(Column(p, j), Column(RatingMatrix(movies, users, ratings), i)) -
              AvgRatings(users, ratings)[i] * Sum(Column(p, j))
  {
    var r := RatingMatrix(movies, users, ratings);
    var avg := AvgRatings(users, ratings);
    var w := DatasetDeviations(movies, users, ratings);
    assert forall m :: 0 <= m < |w| ==> w[m][i] == r[m][i] - avg[i];
    UserProfileCellSplit(p, w, r, |UserList(users)|, nTags, i, j, avg[i]);
  }

  /** `tf_idf.sum(axis=1)`. */
  function RowSums(p: seq<seq<real>>): (s: seq<real>)
    ensures |s| == |p| && forall m :: 0 <= m < |p| ==> s[m] == Sum(p[m])
  {
    seq(|p|, m requires 0 <= m < |p| => Sum(p[m]))
  }

  /** The user's row of dot products, one per tag. */
  function ColumnDots(p: seq<seq<real>>, w: seq<real>, nTags: nat): (row: seq<real>)
    requires |p| == |w| && forall m :: 0 <= m < |p| ==> |p[m]| == nTags
    ensures |row| == nTags
  {
    seq(nTags, j requires 0 <= j < nTags => Dot(Column(p, j), w))
  }

  lemma ColumnDotsSplit(p: seq<seq<real>>, w: seq<real>, nTags: nat, j: nat)
    requires |p| == |w| > 0 && forall m :: 0 <= m < |p| ==> |p[m]| == nTags
    requires j < nTags
    ensures ColumnDots(p, w, nTags)[j] == p[0][j] * w[0] + ColumnDots(p[1..], w[1..], nTags)[j]
  {
    assert Column(p, j)[1..] == Column(p[1..], j);
  }

  /** Peeling off the first movie of the per-tag dot products. */
  lemma ColumnDotsCons(p: seq<seq<real>>, w: seq<real>, nTags: nat)
    requires |p| == |w| > 0 && forall m :: 0 <= m < |p| ==> |p[m]| == nTags
    ensures Sum(ColumnDots(p, w, nTags)) == Sum(p[0]) * w[0] + Sum(ColumnDots(p[1..], w[1..], nTags))
  {
    ColumnDotsPointwise(p, w, nTags);
    SumScaledPlus(ColumnDots(p, w, nTags), p[0], w[0], ColumnDots(p[1..], w[1..], nTags));
  }

  lemma ColumnDotsPointwise(p: seq<seq<real>>, w: seq<real>, nTags: nat)
    requires |p| == |w| > 0 && forall m :: 0 <= m < |p| ==> |p[m]| == nTags
    ensures forall j :: 0 <= j < nTags ==>
              ColumnDots(p, w, nTags)[j] == p[0][j] * w[0] + ColumnDots(p[1..], w[1..], nTags)[j]
  {
    forall j | 0 <= j < nTags
      ensures ColumnDots(p, w, nTags)[j] == p[0][j] * w[0] + ColumnDots(p[1..], w[1..], nTags)[j]
    {
      ColumnDotsSplit(p, w, nTags, j);
    }
  }

  /** Summing the per-tag dot products over the tags sums each movie's row first:
      `sum_j dot(p[:, j], w) == dot(p.sum(axis=1), w)`. */
  lemma {:induction false} SumOfColumnDots(p: seq<seq<real>>, w: seq<real>, nTags: nat)
    requires |p| == |w| && forall m :: 0 <= m < |p| ==> |p[m]| == nTags
    ensures Sum(ColumnDots(p, w, nTags)) == Dot(RowSums(p), w)
  {
    if |p| == 0 {
      SumOfZeros(ColumnDots(p, w, nTags));
    } else {
      ColumnDotsCons(p, w, nTags);
      SumOfColumnDots(p[1..], w[1..], nTags);
      assert RowSums(p)[1..] == RowSums(p[1..]);
    }
  }

  /** When every product-profile row sums to one, a user's profile row sums to the user's
      total deviation over all movies. */
  lemma UserProfileRowSum(p: seq<seq<real>>, w: seq<seq<real>>, nUsers: nat, nTags: nat, i: nat)
    requires |p| == |w|
    requires forall m :: 0 <= m < |p| ==> |p[m]| == nTags && |w[m]| == nUsers
    requires forall m :: 0 <= m < |p| ==> Sum(p[m]) == 1.0
    requires i < nUsers
    ensures Sum(UserProfileData(p, w, nUsers, nTags)[i]) == Sum(Column(w, i))
  {
    var col := Column(w, i);
    assert UserProfileData(p, w, nUsers, nTags)[i] == ColumnDots(p, col, nTags);
    SumOfColumnDots(p, col, nTags);
    DotOnes(RowSums(p), col);
  }

  // ---------------------------------------------------------------- the manager

  /** The `ValueError` the constructor raises when a table is not provided. */
  datatype DatasetError = MissingData(message: string)

  /** What stops a profile build: `math.log` of zero when there are tags but no movies,
      numpy's axis error when there are neither, or a `build_matrix` rejection. */
  datatype ProfileError = LogDomainError | AxisError | MatrixFailure(cause: MatrixError)

  /** A profile matrix: integer ids as row labels, tags as column labels. */
  type Profile = Table<int, string, real>

  /** The dataset manager: the four tables, fixed at construction, and the profile builders. */
  class MoviesDatasetManager {
    const movies: seq<Movie>
    const tags: seq<TagRow>
    const ratings: seq<Rating>
    const users: seq<User>

    constructor (movies: seq<Movie>, tags: seq<TagRow>, ratings: seq<Rating>, users: seq<User>)
      ensures this.movies == movies && this.tags == tags
      ensures this.ratings == ratings && this.users == users
    {
      this.movies := movies;
      this.tags := tags;
      this.ratings := ratings;
      this.users := users;
    }

    /** Construction from four in-memory tables: each absent table is rejected, checked in
        the order movies, tags, ratings, users; otherwise the manager holds exactly them. */
    static method FromTables(movies: Option<seq<Movie>>, tags: Option<seq<TagRow>>,
                             ratings: Option<seq<Rating>>, users: Option<seq<User>>)
      returns (r: Result<MoviesDatasetManager, DatasetError>)
      ensures movies.None? ==> r == Failure(MissingData("Movies data not provided"))
      ensures movies.Some? && tags.None? ==> r == Failure(MissingData("Tags data not provided"))
      ensures movies.Some? && tags.Some? && ratings.None? ==>
                r == Failure(MissingData("Ratings data not provided"))
      ensures movies.Some? && tags.Some? && ratings.Some? && users.None? ==>
                r == Failure(MissingData("Users data not provided"))
      ensures r.Success? <==> movies.Some? && tags.Some? && ratings.Some? && users.Some?
      ensures r.Success? ==> fresh(r.value)
      ensures r.Success? ==> r.value.movies == movies.value && r.value.tags == tags.value
      ensures r.Success? ==> r.value.ratings == ratings.value && r.value.users == users.value
    {
      if movies.None? {
        return Failure(MissingData("Movies data not provided"));
      }
      if tags.None? {
        return Failure(MissingData("Tags data not provided"));
      }
      if ratings.None? {
        return Failure(MissingData("Ratings data not provided"));
      }
      if users.None? {
        return Failure(MissingData("Users data not provided"));
      }
      var m := new MoviesDatasetManager(movies.value, tags.value, ratings.value, users.value);
      return Success(m);
    }

    /** `__build_product_profiles`: the row-normalised TF-IDF matrix, movies by tags. */
    method BuildProductProfiles(ln: real -> real) returns (r: Result<Profile, ProfileError>)
      requires NoZeroRow(RawTfIdf(movies, tags, ln))
      ensures |MovieList(movies)| == 0 && |Vocabulary(tags)| > 0 ==> r == Failure(LogDomainError)
      ensures |MovieList(movies)| == 0 && |Vocabulary(tags)| == 0 ==> r == Failure(AxisError)
      ensures |MovieList(movies)| > 0 && |Vocabulary(tags)| == 0 ==>
                r == Failure(MatrixFailure(NonPositiveFeatures))
      ensures |MovieList(movies)| > 0 && |Vocabulary(tags)| > 0 ==>
                r == Success(Table(MovieList(movies), Vocabulary(tags), Normalise(RawTfIdf(movies, tags, ln))))
      ensures r.Success? ==> Shaped(r.value)
      ensures r.Success? ==> forall i :: 0 <= i < |r.value.values| ==> Sum(r.value.values[i]) == 1.0
    {
      var ms := MovieList(movies);
      var v := Vocabulary(tags);
      if |ms| == 0 {
        if |v| > 0 {
          return Failure(LogDomainError);
        }
        return Failure(AxisError);
      }
      var raw := RawTfIdf(movies, tags, ln);
      var norm := Normalise(raw);
      var m := BuildMatrix(norm, ms, v, None);
      if m.Failure? {
        return Failure(MatrixFailure(m.error));
      }
      NormalisedRowsSumToOne(raw);
      return Success(m.value);
    }

    /** `__build_user_profiles`: for every user and tag, the dot product over movies of the
        tag's product-profile column and the user's rating deviations. */
    method BuildUserProfiles(tfIdf: seq<seq<real>>) returns (r: Result<Profile, ProfileError>)
      requires |tfIdf| == |MovieList(movies)| > 0 && |Vocabulary(tags)| > 0
      requires forall m :: 0 <= m < |tfIdf| ==> |tfIdf[m]| == |Vocabulary(tags)|
      requires EveryUserRated(users, ratings)
      ensures |UserList(users)| == 0 ==> r == Failure(MatrixFailure(RaggedData))
      ensures |UserList(users)| > 0 ==>
                r == Success(Table(UserList(users), Vocabulary(tags),
                                   UserProfileData(tfIdf, DatasetDeviations(movies, users, ratings),
                                                   |UserList(users)|, |Vocabulary(tags)|)))
      ensures r.Success? ==> Shaped(r.value)
    {
      var us := UserList(users);
      var v := Vocabulary(tags);
      var w := DatasetDeviations(movies, users, ratings);
      var data := UserProfileData(tfIdf, w, |us|, |v|);
      var m := BuildMatrix(data, us, v, None);
      if m.Failure? {
        return Failure(MatrixFailure(m.error));
      }
      return Success(m.value);
    }

    /** `build_profiles`: the product profile, then the user profile computed from the
        product profile's values; both share the tag vocabulary as columns. */
    method BuildProfiles(ln: real -> real) returns (r: Result<(Profile, Profile), ProfileError>)
      requires NoZeroRow(RawTfIdf(movies, tags, ln))
      requires |MovieList(movies)| > 0 && |Vocabulary(tags)| > 0 ==> EveryUserRated(users, ratings)
      ensures r.Success? <==> |MovieList(movies)| > 0 && |Vocabulary(tags)| > 0 && |UserList(users)| > 0
      ensures |MovieList(movies)| == 0 && |Vocabulary(tags)| > 0 ==> r == Failure(LogDomainError)
      ensures |MovieList(movies)| == 0 && |Vocabulary(tags)| == 0 ==> r == Failure(AxisError)
      ensures |MovieList(movies)| > 0 && |Vocabulary(tags)| == 0 ==>
                r == Failure(MatrixFailure(NonPositiveFeatures))
      ensures |MovieList(movies)| > 0 && |Vocabulary(tags)| > 0 && |UserList(users)| == 0 ==>
                r == Failure(MatrixFailure(RaggedData))
      ensures r.Success? ==>
                var (products, userProfiles) := r.value;
                && products.index == MovieList(movies)
                && userProfiles.index == UserList(users)
                && products.columns == Vocabulary(tags)
                && userProfiles.columns == products.columns
                && products.values == Normalise(RawTfIdf(movies, tags, ln))
                && userProfiles.values ==
                     UserProfileData(products.values, DatasetDeviations(movies, users, ratings),
                                     |UserList(users)|, |Vocabulary(tags)|)
      ensures r.Success? ==>
                forall m :: 0 <= m < |r.value.0.values| ==> Sum(r.value.0.values[m]) == 1.0
      ensures r.Success? ==>
                forall i :: 0 <= i < |UserList(users)| ==>
                  Sum(r.value.1.values[i]) ==Sum(Column(DatasetDeviations(movies, users, ratings), i))
    {
      var products := BuildProductProfiles(ln);
      if products.Failure? {
        return Failure(products.error);
      }
      var tfIdf := products.value.values;
      var userProfiles := BuildUserProfiles(tfIdf);
      if userProfiles.Failure? {
        return Failure(userProfiles.error);
      }
      forall i | 0 <= i < |UserList(users)|
        ensures Sum(userProfiles.value.values[i]) == Sum(Column(DatasetDeviations(movies, users, ratings), i))
      {
        UserProfileRowSum(tfIdf, DatasetDeviations(movies, users, ratings),
                          |UserList(users)|, |Vocabulary(tags)|, i);
      }
      return Success((products.value, userProfiles.value));
    }
  }
}
