/** pkg/cache/general_cache.go. */
module GeneralCaches {

  import opened Wrappers

  class GeneralCache<T> {
    var data: map<string, T>

    constructor ()
      ensures data == map[]
    {
      data := map[];
    }

    /** An entry that exists already is kept; `ok` tells whether the value went in. */
    method Add(key: string, value: T) returns (stored: T, ok: bool)
      modifies this
      ensures ok <==> key !in old(data)
      ensures data == if ok then old(data)[key := value] else old(data)
      ensures key in data && stored == data[key]
    {
      if key in data {
        return data[key], false;
      }
      data := data[key := value];
      return value, true;
    }

    method Update(key: string, value: T) returns (stored: Option<T>, ok: bool)
      modifies this
      ensures ok <==> key in old(data)
      ensures data == if ok then old(data)[key := value] else old(data)
      ensures stored == if ok then Some(value) else None
    {
      if key !in data {
        return None, false;
      }
      data := data[key := value];
      return Some(value), true;
    }

    method Delete(key: string) returns (removed: Option<T>, ok: bool)
      modifies this
      ensures ok <==> key in old(data)
      ensures data == old(data) - {key}
      ensures removed == if ok then Some(old(data)[key]) else None
    {
      if key !in data {
        return None, false;
      }
      removed := Some(data[key]);
      data := map k | k in data && k != key :: data[k];
      return removed, true;
    }

    method Get(key: string) returns (value: Option<T>, ok: bool)
      ensures ok <==> key in data
      ensures value == if ok then Some(data[key]) else None
    {
      if key in data {
        return Some(data[key]), true;
      }
      return None, false;
    }
  }
}
