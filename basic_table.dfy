/**
 * The admin customer table: the page it asks for, how it stores the reply,
 * how many pages it derives from the record count, and the serial number it
 * prints on each row.
 */
module BasicTable {
  import opened Wrappers
  import opened Http
  import CustomerListRoute

  const PageSize: int := 10

  /** `Math.ceil(totalRecords / pageSize)`, exactly, in integers: `/` by a positive divisor rounds down. */
  function TotalPages(totalRecords: int): (n: int)
    ensures PageSize * n >= totalRecords
    ensures PageSize * (n - 1) < totalRecords
  {
    -((-totalRecords) / PageSize)
  }

  /** The serial number shown on row `index` (0-based) of page `page`. */
  function Serial(page: int, index: int): (n: int)
    ensures 0 <= index < PageSize ==> (page - 1) * PageSize < n <= page * PageSize
  {
    (page - 1) * PageSize + index + 1
  }

  /** The page on which serial number `n` appears. */
  function PageOf(n: int): (page: int)
    ensures (page - 1) * PageSize < n <= page * PageSize
  {
    (n - 1) / PageSize + 1
  }

  /** The row (0-based) on which serial number `n` appears. */
  function RowOf(n: int): (index: int)
    ensures 0 <= index < PageSize
  {
    (n - 1) % PageSize
  }

  /** Each (page, row) pair gets its own serial number, and the serial tells the pair back. */
  lemma SerialDecodes(page: int, index: int)
    requires 0 <= index < PageSize
    ensures PageOf(Serial(page, index)) == page && RowOf(Serial(page, index)) == index
  {
  }

  /** Every positive serial number is printed on exactly one row of one page. */
  lemma SerialCovers(n: int)
    requires n >= 1
    ensures PageOf(n) >= 1 && 0 <= RowOf(n) < PageSize
    ensures Serial(PageOf(n), RowOf(n)) == n
  {
  }

  /** Serial numbers run on without a gap from the last row of one page to the first of the next. */
  lemma AcrossPages(page: int)
    ensures Serial(page, PageSize - 1) + 1 == Serial(page + 1, 0)
  {
  }

  /** The last record lands on the last page. */
  lemma LastRecordOnLastPage(totalRecords: int)
    requires totalRecords >= 1
    ensures PageOf(totalRecords) == TotalPages(totalRecords)
  {
  }


  /** A digit character. */
  function Digit(d: int): (c: char)
    requires 0 <= d < 10
    ensures '0' <= c <= '9' && c as int - '0' as int == d
  {
    ('0' as int + d) as char
  }

  /** The number a string of decimal digits denotes, most significant first. */
  function DigitsValue(s: string): int {
    if s == [] then 0
    else 10 * DigitsValue(s[..|s| - 1]) + (s[|s| - 1] as int - '0' as int)
  }

  /** A number as a template literal prints it. */
  function NumberText(n: int): (s: string)
    ensures s != ""
    ensures n < 0 <==> s[0] == '-'
    ensures n >= 0 ==> forall k :: 0 <= k < |s| ==> '0' <= s[k] <= '9'
    decreases if n < 0 then 1 - n else n
  {
    if n < 0 then "-" + NumberText(-n)
    else if n < 10 then [Digit(n)]
    else NumberText(n / 10) + [Digit(n % 10)]
  }

  /**
   * The text denotes the number: read back as decimal digits (after the `-`
   * of a negative number) it gives the magnitude, with no leading zero.
   */
  lemma {:induction false} NumberTextValue(n: int)
    ensures n >= 0 ==> DigitsValue(NumberText(n)) == n
    ensures n > 0 ==> NumberText(n)[0] != '0'
    ensures n < 0 ==> DigitsValue(NumberText(n)[1..]) == -n
    decreases if n < 0 then 1 - n else n
  {
    var s := NumberText(n);
    if n < 0 {
      NumberTextValue(-n);
      assert s[1..] == NumberText(-n);
    } else if n < 10 {
      assert s[..|s| - 1] == [];
    } else {
      NumberTextValue(n / 10);
      assert s[..|s| - 1] == NumberText(n / 10);
      assert s[0] == NumberText(n / 10)[0];
    }
  }

  /** The query string `?page=${page}&limit=${pageSize}` the table sends. */
  function Request(page: int): (q: CustomerListRoute.Query)
    ensures "page" in q && "limit" in q && "perPage" !in q
  {
    map["page" := NumberText(page), "limit" := NumberText(PageSize)]
  }

  /**
   * The table asks for `limit`, which the list route does not read, so the
   * route forwards its own `perPage` default of '10' and the page verbatim.
   */
  lemma TableQueryForwarded(adminToken: string, page: int,
                                               list: CustomerListRoute.Outbound -> Call<CustomerListRoute.ListReply>)
    requires adminToken != ""
    ensures CustomerListRoute.Get(Some(adminToken), Request(page), list).calls
            == [CustomerListRoute.ListCustomers(adminToken, NumberText(page), "10", "-1")]
  {
  }

  class CustomerTable {
    var customerList: seq<Object>
    var loading: bool
    var currentPage: int
    var totalPages: int
    var totalRecords: int

    constructor ()
      ensures customerList == [] && loading && currentPage == 1 && totalPages == 1 && totalRecords == 0
    {
      customerList := [];
      loading := true;
      currentPage := 1;
      totalPages := 1;
      totalRecords := 0;
    }

    /**
     * `fetchCustomers`: `reply` is the decoded body of the list route (or an
     * exception). Only a `success` body updates the list and the counts;
     * `loading` is cleared whatever happens.
     */
    method FetchCustomers(reply: Call<CustomerListRoute.ListBody>)
      modifies this`customerList, this`totalRecords, this`totalPages, this`loading
      ensures !loading
      ensures reply.Replied? && reply.reply.success ==>
                customerList == reply.reply.data && totalRecords == reply.reply.totalRecords &&
                totalPages == TotalPages(reply.reply.totalRecords)
      ensures !(reply.Replied? && reply.reply.success) ==>
                customerList == old(customerList) && totalRecords == old(totalRecords) &&
                totalPages == old(totalPages)
    {
      loading := true;
      if reply.Replied? && reply.reply.success {
        customerList := reply.reply.data;
        totalRecords := reply.reply.totalRecords;
        totalPages := TotalPages(reply.reply.totalRecords);
      }
      loading := false;
    }

    /** `onPageChange`: the pagination bar moves the table to `page`, which triggers a fetch. */
    method ChangePage(page: int)
      modifies this`currentPage
      ensures currentPage == page
    {
      currentPage := page;
    }
  }
}
